/**
 * WorldUnloader (game/world/WorldUnloader.java): turning the entities the
 * GPU hands back for unloaded sectors into records held by the batch of the
 * sector each lies in, turning broken objects into collectable pieces, and
 * giving each sector queued for unloading a fresh batch.
 *
 * The staging arrays the GPU transfers fill, and the sector a position lies
 * in, are parameters: the transfers and the uniform grid are not part of
 * this model.
 */
module WorldUnloading {
  import opened Wrappers
  import opened UnorderedCoreBuffers
  import opened WorldSectors
  import Constants

  /** The exceptions unload_sectors can end in. */
  datatype Fault =
    | IndexOutOfBounds
    | NegativeArraySize(size: int)
    | UnexpectedBoneTableSize(size: int)
    | MissingBatch(sector: Sector)

  /** A value read from the staging arrays, or the exception reading it threw. */
  datatype Read<T> = Read(value: T) | Thrown(fault: Fault)

  /* ---- one record at a time ---- */

  /** Element o of an array read one value per record. */
  predicate In<T>(a: seq<T>, o: int)
  {
    0 <= o < |a|
  }

  /** Elements 2o and 2o+1 of an array read two values per record. */
  predicate Pair<T>(a: seq<T>, o: int)
  {
    0 <= o && 2 * o + 2 <= |a|
  }

  /** Elements 4o to 4o+3 of an array read four values per record. */
  predicate Quad<T>(a: seq<T>, o: int)
  {
    0 <= o && 4 * o + 4 <= |a|
  }

  /** The 16-float matrix of record o. */
  predicate Matrix(a: seq<real>, o: int)
  {
    0 <= o && 16 * o + 16 <= |a|
  }

  function EntityBoneAt(raw: RawArrays, o: int): Read<UnloadedEntityBone>
  {
    if Matrix(raw.entity_bone, o) && In(raw.entity_bone_reference_id, o) && In(raw.entity_bone_parent_id, o)
    then Read(UnloadedEntityBone(raw.entity_bone[16 * o .. 16 * o + 16],
                                 raw.entity_bone_reference_id[o], raw.entity_bone_parent_id[o]))
    else Thrown(IndexOutOfBounds)
  }

  function HullBoneAt(raw: RawArrays, o: int): Read<UnloadedHullBone>
  {
    if Matrix(raw.hull_bone, o) && In(raw.hull_bone_bind_pose_id, o) && In(raw.hull_bone_inv_bind_pose_id, o)
    then Read(UnloadedHullBone(raw.hull_bone[16 * o .. 16 * o + 16],
                               raw.hull_bone_bind_pose_id[o], raw.hull_bone_inv_bind_pose_id[o]))
    else Thrown(IndexOutOfBounds)
  }

  function PointAt(raw: RawArrays, o: int): Read<UnloadedPoint>
  {
    if Quad(raw.point, o) && Quad(raw.point_bone_table, o) && In(raw.point_vertex_reference, o)
       && In(raw.point_hull_index, o) && In(raw.point_hit_count, o) && In(raw.point_flag, o)
    then Read(UnloadedPoint(raw.point[4 * o], raw.point[4 * o + 1], raw.point[4 * o + 2], raw.point[4 * o + 3],
                            raw.point_bone_table[4 * o], raw.point_bone_table[4 * o + 1],
                            raw.point_bone_table[4 * o + 2], raw.point_bone_table[4 * o + 3],
                            raw.point_vertex_reference[o], raw.point_hull_index[o],
                            raw.point_hit_count[o], raw.point_flag[o]))
    else Thrown(IndexOutOfBounds)
  }

  /** Edge o, its end points rebased by its hull's first point. */
  function EdgeAt(raw: RawArrays, firstPoint: int, o: int): Read<UnloadedEdge>
  {
    if Pair(raw.edge, o) && In(raw.edge_length, o) && In(raw.edge_flag, o)
    then Read(UnloadedEdge(raw.edge[2 * o] - firstPoint, raw.edge[2 * o + 1] - firstPoint,
                           raw.edge_length[o], raw.edge_flag[o]))
    else Thrown(IndexOutOfBounds)
  }

  /* ---- a run of records: each table's loop ---- */

  /** A record followed by the rest of its run: the record's exception, or the record in front of the rest. */
  function Cons<T>(v: Read<T>, rest: Read<seq<T>>): (r: Read<seq<T>>)
    ensures v.Thrown? ==> r == Thrown(v.fault)
    ensures v.Read? && rest.Thrown? ==> r == rest
    ensures v.Read? && rest.Read? ==> r == Read([v.value] + rest.value)
  {
    match v
    case Thrown(f) => Thrown(f)
    case Read(x) =>
      match rest
      case Thrown(f) => Thrown(f)
      case Read(xs) => Read([x] + xs)
  }

  /** The values a loop has read so far, followed by what the rest of its run reads. */
  function After<T>(values: seq<T>, rest: Read<seq<T>>): (r: Read<seq<T>>)
    ensures rest.Thrown? ==> r == rest
    ensures rest.Read? ==> r == Read(values + rest.value)
  {
    match rest
    case Thrown(f) => Thrown(f)
    case Read(xs) => Read(values + xs)
  }

  /** One loop step: a record that reads joins the values read so far, and one that throws ends the run. */
  lemma AfterCons<T>(values: seq<T>, v: Read<T>, rest: Read<seq<T>>)
    ensures v.Thrown? ==> After(values, Cons(v, rest)) == Thrown(v.fault)
    ensures v.Read? ==> After(values, Cons(v, rest)) == After(values + [v.value], rest)
  {
    if v.Read? && rest.Read? {
      assert values + ([v.value] + rest.value) == values + [v.value] + rest.value;
    }
  }

  /** A loop starts with nothing read, and ends when the rest of its run is empty. */
  lemma AfterEnds<T>(values: seq<T>, rest: Read<seq<T>>)
    ensures After([], rest) == rest
    ensures After(values, Read([])) == Read(values)
  {
    if rest.Read? {
      assert [] + rest.value == rest.value;
    }
    assert values + [] == values;
  }

  /*
   * Records first to last of a table, read in order, or the exception of
   * the first that throws: one function per table, as unload_sectors has one
   * loop per table. A run is as long as its range.
   */

  function EntityBoneRun(raw: RawArrays, first: int, last: int): (r: Read<seq<UnloadedEntityBone>>)
    ensures r.Read? ==> |r.value| == if first <= last then last - first + 1 else 0
    decreases last - first
  {
    if first > last then Read([]) else Cons(EntityBoneAt(raw, first), EntityBoneRun(raw, first + 1, last))
  }

  function HullBoneRun(raw: RawArrays, first: int, last: int): (r: Read<seq<UnloadedHullBone>>)
    ensures r.Read? ==> |r.value| == if first <= last then last - first + 1 else 0
    decreases last - first
  {
    if first > last then Read([]) else Cons(HullBoneAt(raw, first), HullBoneRun(raw, first + 1, last))
  }

  function PointRun(raw: RawArrays, first: int, last: int): (r: Read<seq<UnloadedPoint>>)
    ensures r.Read? ==> |r.value| == if first <= last then last - first + 1 else 0
    decreases last - first
  {
    if first > last then Read([]) else Cons(PointAt(raw, first), PointRun(raw, first + 1, last))
  }

  function EdgeRun(raw: RawArrays, firstPoint: int, first: int, last: int): (r: Read<seq<UnloadedEdge>>)
    ensures r.Read? ==> |r.value| == if first <= last then last - first + 1 else 0
    decreases last - first
  {
    if first > last then Read([]) else Cons(EdgeAt(raw, firstPoint, first), EdgeRun(raw, firstPoint, first + 1, last))
  }

  /** A run of points reads exactly when each of its points does, and then value i is point first+i. */
  lemma {:induction false} PointRunAll(raw: RawArrays, first: int, last: int)
    ensures PointRun(raw, first, last).Read? <==> forall o :: first <= o <= last ==> PointAt(raw, o).Read?
    ensures PointRun(raw, first, last).Read? ==>
              forall i :: 0 <= i <= last - first ==> PointAt(raw, first + i) == Read(PointRun(raw, first, last).value[i])
    decreases last - first
  {
    if first <= last {
      PointRunAll(raw, first + 1, last);
      var r := PointRun(raw, first, last);
      if r.Read? {
        var rest := PointRun(raw, first + 1, last).value;
        forall i | 0 <= i <= last - first
          ensures PointAt(raw, first + i) == Read(r.value[i])
        {
          if i > 0 {
            assert r.value[i] == rest[i - 1];
            assert first + i == first + 1 + (i - 1);
          }
        }
      }
    }
  }

  /** A run of edges reads exactly when each of its edges does, and then value i is edge first+i. */
  lemma {:induction false} EdgeRunAll(raw: RawArrays, firstPoint: int, first: int, last: int)
    ensures EdgeRun(raw, firstPoint, first, last).Read? <==> forall o :: first <= o <= last ==> EdgeAt(raw, firstPoint, o).Read?
    ensures EdgeRun(raw, firstPoint, first, last).Read? ==>
              forall i :: 0 <= i <= last - first ==>
                EdgeAt(raw, firstPoint, first + i) == Read(EdgeRun(raw, firstPoint, first, last).value[i])
    decreases last - first
  {
    if first <= last {
      EdgeRunAll(raw, firstPoint, first + 1, last);
      var r := EdgeRun(raw, firstPoint, first, last);
      if r.Read? {
        var rest := EdgeRun(raw, firstPoint, first + 1, last).value;
        forall i | 0 <= i <= last - first
          ensures EdgeAt(raw, firstPoint, first + i) == Read(r.value[i])
        {
          if i > 0 {
            assert r.value[i] == rest[i - 1];
            assert first + i == first + 1 + (i - 1);
          }
        }
      }
    }
  }

  /**
   * Edge end points are rebased to be hull relative: each is the raw point
   * index less the hull's first point, so end points that lie in the hull's
   * point table land in the hull's own point list.
   */
  lemma EdgesAreHullRelative(raw: RawArrays, firstPoint: int, lastPoint: int, first: int, last: int)
    requires EdgeRun(raw, firstPoint, first, last).Read?
    requires forall o :: first <= o <= last && Pair(raw.edge, o) ==>
               firstPoint <= raw.edge[2 * o] <= lastPoint && firstPoint <= raw.edge[2 * o + 1] <= lastPoint
    ensures forall i :: 0 <= i <= last - first ==>
              && Pair(raw.edge, first + i)
              && EdgeRun(raw, firstPoint, first, last).value[i].p1 == raw.edge[2 * (first + i)] - firstPoint
              && EdgeRun(raw, firstPoint, first, last).value[i].p2 == raw.edge[2 * (first + i) + 1] - firstPoint
    ensures forall e :: e in EdgeRun(raw, firstPoint, first, last).value ==>
              0 <= e.p1 <= lastPoint - firstPoint && 0 <= e.p2 <= lastPoint - firstPoint
  {
    EdgeRunAll(raw, firstPoint, first, last);
    var edges := EdgeRun(raw, firstPoint, first, last).value;
    forall i | 0 <= i <= last - first
      ensures && Pair(raw.edge, first + i)
              && EdgeRun(raw, firstPoint, first, last).value[i].p1 == raw.edge[2 * (first + i)] - firstPoint
              && EdgeRun(raw, firstPoint, first, last).value[i].p2 == raw.edge[2 * (first + i) + 1] - firstPoint
    {
      EdgeReadAt(raw, firstPoint, first + i, edges[i]);
    }
    forall e | e in edges
      ensures 0 <= e.p1 <= lastPoint - firstPoint && 0 <= e.p2 <= lastPoint - firstPoint
    {
      var i :| 0 <= i < |edges| && edges[i] == e;
      EdgeReadAt(raw, firstPoint, first + i, e);
    }
  }

  /** An edge that reads holds the two point indices stored for it, less the hull's first point. */
  lemma EdgeReadAt(raw: RawArrays, firstPoint: int, o: int, e: UnloadedEdge)
    requires EdgeAt(raw, firstPoint, o) == Read(e)
    ensures Pair(raw.edge, o) && e.p1 == raw.edge[2 * o] - firstPoint && e.p2 == raw.edge[2 * o + 1] - firstPoint
  {
  }

  /* ---- hulls ---- */

  predicate HullFieldsIn(raw: RawArrays, o: int)
  {
    && Quad(raw.hull, o) && Pair(raw.hull_scale, o) && Pair(raw.hull_rotation, o)
    && In(raw.hull_friction, o) && In(raw.hull_restitution, o) && In(raw.hull_integrity, o)
    && In(raw.hull_mesh_id, o) && In(raw.hull_entity_id, o) && In(raw.hull_uv_offset, o) && In(raw.hull_flag, o)
    && Pair(raw.hull_point_table, o) && Pair(raw.hull_edge_table, o) && Pair(raw.hull_bone_table, o)
  }

  /**
   * Hull o with its points, edges and bones: the three arrays are sized
   * table end - table start + 1, in that order, then filled in that order.
   */
  function HullAt(raw: RawArrays, o: int): Read<UnloadedHull>
  {
    if !HullFieldsIn(raw, o) then Thrown(IndexOutOfBounds)
    else
      var firstPoint, lastPoint := raw.hull_point_table[2 * o], raw.hull_point_table[2 * o + 1];
      var firstEdge, lastEdge := raw.hull_edge_table[2 * o], raw.hull_edge_table[2 * o + 1];
      var firstBone, lastBone := raw.hull_bone_table[2 * o], raw.hull_bone_table[2 * o + 1];
      if lastPoint - firstPoint + 1 < 0 then Thrown(NegativeArraySize(lastPoint - firstPoint + 1))
      else if lastEdge - firstEdge + 1 < 0 then Thrown(NegativeArraySize(lastEdge - firstEdge + 1))
      else if lastBone - firstBone + 1 < 0 then Thrown(NegativeArraySize(lastBone - firstBone + 1))
      else
        var points := PointRun(raw, firstPoint, lastPoint);
        var edges := EdgeRun(raw, firstPoint, firstEdge, lastEdge);
        var bones := HullBoneRun(raw, firstBone, lastBone);
        if points.Thrown? then Thrown(points.fault)
        else if edges.Thrown? then Thrown(edges.fault)
        else if bones.Thrown? then Thrown(bones.fault)
        else Read(UnloadedHull(raw.hull[4 * o], raw.hull[4 * o + 1], raw.hull[4 * o + 2], raw.hull[4 * o + 3],
                               raw.hull_scale[2 * o], raw.hull_scale[2 * o + 1],
                               raw.hull_rotation[2 * o], raw.hull_rotation[2 * o + 1],
                               raw.hull_friction[o], raw.hull_restitution[o], raw.hull_integrity[o],
                               raw.hull_mesh_id[o], raw.hull_entity_id[o], raw.hull_uv_offset[o], raw.hull_flag[o],
                               points.value, edges.value, bones.value))
  }

  /** Hulls first to last, read in order, or the exception of the first that throws. */
  function HullRun(raw: RawArrays, first: int, last: int): (r: Read<seq<UnloadedHull>>)
    ensures r.Read? ==> |r.value| == if first <= last then last - first + 1 else 0
    decreases last - first
  {
    if first > last then Read([]) else Cons(HullAt(raw, first), HullRun(raw, first + 1, last))
  }

  /** An unloaded hull holds as many points, edges and bones as its tables span. */
  lemma HullTablesSized(raw: RawArrays, o: int)
    requires HullAt(raw, o).Read?
    ensures HullFieldsIn(raw, o)
    ensures |HullAt(raw, o).value.points| == raw.hull_point_table[2 * o + 1] - raw.hull_point_table[2 * o] + 1
    ensures |HullAt(raw, o).value.edges| == raw.hull_edge_table[2 * o + 1] - raw.hull_edge_table[2 * o] + 1
    ensures |HullAt(raw, o).value.bones| == raw.hull_bone_table[2 * o + 1] - raw.hull_bone_table[2 * o] + 1
  {
  }

  /* ---- entities ---- */

  predicate EntityFieldsIn(raw: RawArrays, o: int)
  {
    && Quad(raw.entity, o) && Pair(raw.entity_anim_time, o) && Pair(raw.entity_prev_time, o)
    && Pair(raw.entity_motion_state, o) && Pair(raw.entity_anim_layers, o) && Pair(raw.entity_anim_previous, o)
    && In(raw.entity_model_id, o) && In(raw.entity_model_transform, o) && In(raw.entity_mass, o)
    && In(raw.entity_root_hull, o) && In(raw.entity_type, o) && In(raw.entity_flag, o)
    && Pair(raw.entity_bone_table, o) && Pair(raw.entity_hull_table, o)
  }

  /** The entity's first and last bone, from its bone table. */
  function BoneTable(raw: RawArrays, o: int): (int, int)
    requires EntityFieldsIn(raw, o)
  {
    (raw.entity_bone_table[2 * o], raw.entity_bone_table[2 * o + 1])
  }

  /** The entity's first and last hull, from its hull table. */
  function HullTable(raw: RawArrays, o: int): (int, int)
    requires EntityFieldsIn(raw, o)
  {
    (raw.entity_hull_table[2 * o], raw.entity_hull_table[2 * o + 1])
  }

  /**
   * Entity o with its bones and hulls. The bone array and then the hull
   * array are sized table end - table start + 1; an entity with bones when
   * no bone came back is an error of its own; the bones are read before the
   * hulls; the root hull is rebased by the entity's first hull.
   */
  function EntityAt(raw: RawArrays, o: int): Read<UnloadedEntity>
  {
    if !EntityFieldsIn(raw, o) then Thrown(IndexOutOfBounds)
    else
      var (firstBone, lastBone) := BoneTable(raw, o);
      var (firstHull, lastHull) := HullTable(raw, o);
      var boneCount := lastBone - firstBone + 1;
      var hullCount := lastHull - firstHull + 1;
      if boneCount < 0 then Thrown(NegativeArraySize(boneCount))
      else if hullCount < 0 then Thrown(NegativeArraySize(hullCount))
      else if boneCount > 0 && |raw.entity_bone| == 0 then Thrown(UnexpectedBoneTableSize(boneCount))
      else
        var bones := EntityBoneRun(raw, firstBone, lastBone);
        var hulls := HullRun(raw, firstHull, lastHull);
        if bones.Thrown? then Thrown(bones.fault)
        else if hulls.Thrown? then Thrown(hulls.fault)
        else Read(UnloadedEntity(raw.entity[4 * o], raw.entity[4 * o + 1], raw.entity[4 * o + 2], raw.entity[4 * o + 3],
                                 raw.entity_anim_time[2 * o], raw.entity_anim_time[2 * o + 1],
                                 raw.entity_prev_time[2 * o], raw.entity_prev_time[2 * o + 1],
                                 raw.entity_motion_state[2 * o], raw.entity_motion_state[2 * o + 1],
                                 raw.entity_anim_layers[2 * o], raw.entity_anim_layers[2 * o + 1],
                                 raw.entity_anim_previous[2 * o], raw.entity_anim_previous[2 * o + 1],
                                 raw.entity_model_id[o], raw.entity_model_transform[o],
                                 raw.entity_mass[o], raw.entity_root_hull[o] - firstHull,
                                 raw.entity_type[o], raw.entity_flag[o],
                                 hulls.value, bones.value))
  }

  /**
   * An unloaded entity holds as many bones and hulls as its tables span, and
   * its root hull is rebased to its own hull list: a root hull inside the
   * hull table becomes a position in the entity's hulls.
   */
  lemma EntityIsSelfContained(raw: RawArrays, o: int)
    requires EntityAt(raw, o).Read?
    ensures EntityFieldsIn(raw, o)
    ensures |EntityAt(raw, o).value.bones| == BoneTable(raw, o).1 - BoneTable(raw, o).0 + 1
    ensures |EntityAt(raw, o).value.hulls| == HullTable(raw, o).1 - HullTable(raw, o).0 + 1
    ensures EntityAt(raw, o).value.rootHull == raw.entity_root_hull[o] - HullTable(raw, o).0
    ensures HullTable(raw, o).0 <= raw.entity_root_hull[o] <= HullTable(raw, o).1 ==>
              0 <= EntityAt(raw, o).value.rootHull < |EntityAt(raw, o).value.hulls|
  {
  }

  /** An entity whose bone table is not empty cannot come back when no bone did. */
  lemma BonesNeedBoneData(raw: RawArrays, o: int)
    requires EntityFieldsIn(raw, o) && |raw.entity_bone| == 0
    requires BoneTable(raw, o).1 >= BoneTable(raw, o).0
    requires HullTable(raw, o).1 - HullTable(raw, o).0 + 1 >= 0
    ensures EntityAt(raw, o) == Thrown(UnexpectedBoneTableSize(BoneTable(raw, o).1 - BoneTable(raw, o).0 + 1))
  {
  }

  /** Entities offset to count-1 as unload_sectors reads them, each read on its own. */
  function EntityReads(raw: RawArrays, offset: int, count: int): (r: seq<Read<UnloadedEntity>>)
    ensures |r| == if offset < count then count - offset else 0
    decreases count - offset
  {
    if offset >= count then [] else [EntityAt(raw, offset)] + EntityReads(raw, offset + 1, count)
  }

  /** Read i is entity offset+i. */
  lemma {:induction false} EntityReadsAre(raw: RawArrays, offset: int, count: int)
    ensures forall i :: 0 <= i < count - offset ==> EntityReads(raw, offset, count)[i] == EntityAt(raw, offset + i)
    decreases count - offset
  {
    if offset < count {
      EntityReadsAre(raw, offset + 1, count);
      var got := EntityReads(raw, offset, count);
      forall i | 0 <= i < count - offset
        ensures got[i] == EntityAt(raw, offset + i)
      {
        if i > 0 {
          assert got[i] == EntityReads(raw, offset + 1, count)[i - 1];
          assert offset + i == offset + 1 + (i - 1);
        }
      }
    }
  }

  /* ---- unload_sectors: every entity into its sector's batch ---- */

  /** The batch with an entity appended, as new_entity leaves it. */
  function WithEntity(b: Batch, e: UnloadedEntity): Batch
  {
    Batch(b.spawns + [Stored(e)])
  }

  /**
   * The running batches after the entities read went, in order, to the
   * batch of the sector their position lies in, with the exception of the
   * first entity that could not be unloaded (the batches then stand as that
   * entity found them).
   */
  function Unloaded(got: seq<Read<UnloadedEntity>>, batches: map<Sector, Batch>, sectorFor: (real, real) -> Sector)
    : (r: (map<Sector, Batch>, Option<Fault>))
    ensures r.0.Keys == batches.Keys
  {
    if got == [] then (batches, None)
    else match got[0]
      case Thrown(f) => (batches, Some(f))
      case Read(e) =>
        var s := sectorFor(e.x, e.y);
        if s !in batches then (batches, Some(MissingBatch(s)))
        else Unloaded(got[1..], batches[s := WithEntity(batches[s], e)], sectorFor)
  }

  /** Unloading only appends: every batch keeps what it held. */
  lemma {:induction false} UnloadingOnlyAppends(got: seq<Read<UnloadedEntity>>, batches: map<Sector, Batch>,
                                                sectorFor: (real, real) -> Sector, s: Sector)
    requires s in batches
    ensures batches[s].spawns <= Unloaded(got, batches, sectorFor).0[s].spawns
  {
    if got != [] && got[0].Read? {
      var e := got[0].value;
      var t := sectorFor(e.x, e.y);
      if t in batches {
        var next := batches[t := WithEntity(batches[t], e)];
        UnloadingOnlyAppends(got[1..], next, sectorFor, s);
        assert batches[s].spawns <= next[s].spawns;
      }
    }
  }

  /** Once unloading succeeds, every entity read is in the batch of the sector its position lies in. */
  lemma {:induction false} EntityLandsInItsSector(got: seq<Read<UnloadedEntity>>, batches: map<Sector, Batch>,
                                                  sectorFor: (real, real) -> Sector, i: nat)
    requires i < |got|
    requires Unloaded(got, batches, sectorFor).1.None?
    ensures got[i].Read?
    ensures var e := got[i].value;
            && sectorFor(e.x, e.y) in batches
            && Stored(e) in Unloaded(got, batches, sectorFor).0[sectorFor(e.x, e.y)].spawns
  {
    var e := got[0].value;
    var t := sectorFor(e.x, e.y);
    var next := batches[t := WithEntity(batches[t], e)];
    assert Unloaded(got, batches, sectorFor) == Unloaded(got[1..], next, sectorFor);
    if i == 0 {
      UnloadingOnlyAppends(got[1..], next, sectorFor, t);
      assert Stored(e) in next[t].spawns;
    } else {
      assert got[i] == got[1..][i - 1];
      EntityLandsInItsSector(got[1..], next, sectorFor, i - 1);
    }
  }

  /** Unloading succeeds exactly when every entity reads without an exception and has a batch. */
  lemma {:induction false} UnloadedNeedsEveryBatch(got: seq<Read<UnloadedEntity>>, batches: map<Sector, Batch>,
                                                   sectorFor: (real, real) -> Sector)
    ensures Unloaded(got, batches, sectorFor).1.None? <==>
              forall i :: 0 <= i < |got| ==> (got[i].Read? && sectorFor(got[i].value.x, got[i].value.y) in batches)
  {
    if got != [] && got[0].Read? {
      var e := got[0].value;
      var t := sectorFor(e.x, e.y);
      if t in batches {
        var next := batches[t := WithEntity(batches[t], e)];
        UnloadedNeedsEveryBatch(got[1..], next, sectorFor);
        assert forall i :: 1 <= i < |got| ==> got[i] == got[1..][i - 1];
      }
    }
  }

  /* ---- unload_broken: broken objects into collectable pieces ---- */

  /** The broken-object staging arrays: two position floats, a type and a model id per object. */
  datatype BrokenRaw = BrokenRaw(positions: seq<real>, entity_types: seq<int>, model_ids: seq<int>)

  /** The arrays hold the same number of objects, and every type is the -1 end marker. */
  predicate Cleared(raw: BrokenRaw)
  {
    && |raw.positions| == 2 * |raw.entity_types|
    && |raw.model_ids| == |raw.entity_types|
    && forall i :: 0 <= i < |raw.entity_types| ==> raw.entity_types[i] == -1
  }

  /** An array after ensure_space and a transfer of w into its head: w, followed by what the array held past it. */
  function Overwritten<T>(a: seq<T>, w: seq<T>): (r: seq<T>)
    ensures |r| == if |a| >= |w| then |a| else |w|
    ensures r[..|w|] == w
    ensures forall i :: |w| <= i < |r| ==> r[i] == a[i]
  {
    if |a| >= |w| then w + a[|w|..] else w
  }

  /** The staging arrays after ensure_space and the transfer of count broken objects. */
  function Received(raw: BrokenRaw, written: BrokenRaw): BrokenRaw
  {
    BrokenRaw(Overwritten(raw.positions, written.positions),
              Overwritten(raw.entity_types, written.entity_types),
              Overwritten(raw.model_ids, written.model_ids))
  }

  /** The first object whose type is the -1 end marker, or the number of objects when none is. */
  function Live(types: seq<int>): (n: nat)
    ensures n <= |types|
    ensures forall i :: 0 <= i < n ==> types[i] != -1
    ensures n < |types| ==> types[n] == -1
  {
    if |types| == 0 || types[0] == -1 then 0 else 1 + Live(types[1..])
  }

  /**
   * Filling the types with -1 after every unload is what keeps earlier
   * frames' objects out: the next transfer of objects is read up to its own
   * end, however few objects it brings.
   */
  lemma StaleObjectsAreSkipped(raw: BrokenRaw, written: BrokenRaw)
    requires Cleared(raw)
    requires forall i :: 0 <= i < |written.entity_types| ==> written.entity_types[i] != -1
    ensures Live(Received(raw, written).entity_types) == |written.entity_types|
  {
    var types := Received(raw, written).entity_types;
    var n := |written.entity_types|;
    assert forall i :: 0 <= i < n ==> types[i] == types[..n][i] == written.entity_types[i];
    assert n < |types| ==> types[n] == raw.entity_types[n] == -1;
  }

  /** The model ids unload_broken tells apart. */
  datatype ShapeIds = ShapeIds(block: int, leftShard: int, rightShard: int, spike: int)

  /**
   * The pieces a broken object at (x, y) with type index and model id m
   * breaks into: three blocks, two shards or three spike shards, half a
   * block in size and offset by a quarter of that less 2; nothing unless
   * its substance is a solid or its model one of the four.
   */
  function Pieces(x: real, y: real, substance: int, m: int, solid: bool, ids: ShapeIds, blockSize: real): seq<Spawn>
  {
    if !solid then []
    else
      var sz := blockSize / 2.0;
      var offset := sz / 2.0 - 2.0;
      var flags := Constants.Collectable;
      if m == ids.block then
        [Block(x - offset, y - offset, sz, flags, substance),
         Block(x - offset, y + offset, sz, flags, substance),
         Block(x + offset, y - offset, sz, flags, substance)]
      else if m == ids.leftShard then
        [Shard(false, false, x - offset, y + offset, sz, flags, substance),
         Shard(false, true, x + offset, y + offset, sz, flags, substance)]
      else if m == ids.rightShard then
        [Shard(false, true, x - offset, y + offset, sz, flags, substance),
         Shard(false, false, x + offset, y + offset, sz, flags, substance)]
      else if m == ids.spike then
        [Shard(true, false, x - offset, y + offset, sz, flags, substance),
         Shard(true, false, x + offset, y - offset, sz, flags, substance),
         Shard(true, false, x + offset, y + offset, sz, flags, substance)]
      else []
  }

  /** Whether a piece is a collectable of the given substance, half a block in size, offset diagonally from (x, y). */
  predicate PieceOf(p: Spawn, x: real, y: real, substance: int, blockSize: real)
  {
    var sz := blockSize / 2.0;
    var offset := sz / 2.0 - 2.0;
    && !p.Stored?
    && p.size == sz && p.flags == Constants.Collectable && p.substance == substance
    && (p.x == x - offset || p.x == x + offset)
    && (p.y == y - offset || p.y == y + offset)
  }

  /** Every piece is a collectable of the object's substance around the object's position, and only solids break into pieces. */
  lemma PiecesSurroundTheObject(x: real, y: real, substance: int, m: int, solid: bool, ids: ShapeIds, blockSize: real)
    ensures forall p :: p in Pieces(x, y, substance, m, solid, ids, blockSize) ==> PieceOf(p, x, y, substance, blockSize)
    ensures !solid ==> Pieces(x, y, substance, m, solid, ids, blockSize) == []
    ensures |Pieces(x, y, substance, m, solid, ids, blockSize)| in {0, 2, 3}
  {
  }

  /** The pieces of broken objects i to n-1, in order. */
  function BrokenPieces(raw: BrokenRaw, i: nat, n: nat, solid: int -> bool, ids: ShapeIds, blockSize: real): seq<Spawn>
    requires n <= |raw.entity_types| && |raw.positions| == 2 * |raw.entity_types| && |raw.model_ids| == |raw.entity_types|
    decreases n - i
  {
    if i >= n then []
    else
      var t := raw.entity_types[i];
      Pieces(raw.positions[2 * i], raw.positions[2 * i + 1], t, raw.model_ids[i], solid(t), ids, blockSize)
        + BrokenPieces(raw, i + 1, n, solid, ids, blockSize)
  }

  /* ---- the unloader ---- */

  class WorldUnloader {
    const channels: Channels
    var running_batches: map<Sector, Batch>
    var raw_broken: BrokenRaw

    constructor(channels: Channels)
      ensures this.channels == channels
      ensures running_batches == map[]
      ensures raw_broken == BrokenRaw([], [], []) && Cleared(raw_broken)
    {
      this.channels := channels;
      running_batches := map[];
      raw_broken := BrokenRaw([], [], []);
    }

    /**
     * tick: every sector polled off the unload queue gets a fresh batch
     * among the running batches, and the queue is left empty.
     */
    method Tick()
      modifies this`running_batches, channels`unload_queue
      ensures channels.unload_queue == []
      ensures running_batches.Keys == old(running_batches.Keys) + set s | s in old(channels.unload_queue)
      ensures forall s :: s in old(channels.unload_queue) ==> running_batches[s] == EmptyBatch
      ensures forall s :: s in old(running_batches) && s !in old(channels.unload_queue) ==>
                running_batches[s] == old(running_batches[s])
    {
      ghost var polled: seq<Sector> := [];
      while channels.unload_queue != []
        invariant polled + channels.unload_queue == old(channels.unload_queue)
        invariant running_batches.Keys == old(running_batches.Keys) + set s | s in polled
        invariant forall s :: s in polled ==> running_batches[s] == EmptyBatch
        invariant forall s :: s in old(running_batches) && s !in polled ==> running_batches[s] == old(running_batches[s])
        decreases |channels.unload_queue|
      {
        var unloading := channels.unload_queue[0];
        channels.unload_queue := channels.unload_queue[1..];
        running_batches := running_batches[unloading := EmptyBatch];
        polled := polled + [unloading];
      }
    }

    /**
     * unload_sectors: when entities came back, each is read out of the
     * staging arrays and appended to the running batch of the sector its
     * position lies in; then every running batch is put in the sector cache
     * and the running batches are cleared. An entity that throws stops the
     * unload where it stands.
     */
    method UnloadSectors(last_counts: seq<int>, raw: RawArrays, sectorFor: (real, real) -> Sector)
      returns (fault: Option<Fault>)
      requires |last_counts| >= 1
      modifies this`running_batches, channels`sector_cache
      ensures last_counts[0] <= 0 ==> fault.None? && running_batches == old(running_batches)
                                      && channels.sector_cache == old(channels.sector_cache)
      ensures last_counts[0] > 0 ==>
                var (m, f) := Unloaded(EntityReads(raw, 0, last_counts[0]), old(running_batches), sectorFor);
                && fault == f
                && (f.None? ==> running_batches == map[] && channels.sector_cache == old(channels.sector_cache) + m)
                && (f.Some? ==> running_batches == m && channels.sector_cache == old(channels.sector_cache))
    {
      fault := None;
      var entity_count := last_counts[0];
      if entity_count > 0 {
        fault := UnloadEntities(raw, entity_count, sectorFor);
        if fault.None? {
          channels.sector_cache := channels.sector_cache + running_batches;
          running_batches := map[];
        }
      }
    }

    /** The entity loop of unload_sectors: each entity in turn into its sector's running batch. */
    method UnloadEntities(raw: RawArrays, entity_count: int, sectorFor: (real, real) -> Sector)
      returns (fault: Option<Fault>)
      modifies this`running_batches
      ensures (running_batches, fault) == Unloaded(EntityReads(raw, 0, entity_count), old(running_batches), sectorFor)
    {
      var entity_offset := 0;
      while entity_offset < entity_count
        invariant Unloaded(EntityReads(raw, 0, entity_count), old(running_batches), sectorFor)
                  == Unloaded(EntityReads(raw, entity_offset, entity_count), running_batches, sectorFor)
        decreases entity_count - entity_offset
      {
        var entity := ReadEntity(raw, entity_offset);
        ghost var got := EntityReads(raw, entity_offset, entity_count);
        assert got[0] == entity && got[1..] == EntityReads(raw, entity_offset + 1, entity_count);
        if entity.Thrown? {
          return Some(entity.fault);
        }
        var unloaded_entity := entity.value;
        var sec := sectorFor(unloaded_entity.x, unloaded_entity.y);
        if sec !in running_batches {
          return Some(MissingBatch(sec));
        }
        running_batches := running_batches[sec := WithEntity(running_batches[sec], unloaded_entity)];
        entity_offset := entity_offset + 1;
      }
      fault := None;
    }

    /**
     * unload_broken: when broken objects came back, the objects up to the
     * first -1 type break into pieces gathered in a new batch, which is
     * offered to the load queue; then every type is set to -1.
     */
    method UnloadBroken(last_counts: seq<int>, written: BrokenRaw, solid: int -> bool, ids: ShapeIds, blockSize: real)
      requires |last_counts| >= 7
      requires Cleared(raw_broken)
      requires last_counts[6] > 0 ==>
                 |written.entity_types| == last_counts[6] && |written.model_ids| == last_counts[6]
                 && |written.positions| == 2 * last_counts[6]
      modifies this`raw_broken, channels`load_queue
      ensures Cleared(raw_broken)
      ensures last_counts[6] <= 0 ==> raw_broken == old(raw_broken) && channels.load_queue == old(channels.load_queue)
      ensures last_counts[6] > 0 ==>
                var r := Received(old(raw_broken), written);
                && |raw_broken.entity_types| == |r.entity_types|
                && raw_broken.positions == r.positions && raw_broken.model_ids == r.model_ids
                && channels.load_queue
                   == old(channels.load_queue) + [Batch(BrokenPieces(r, 0, Live(r.entity_types), solid, ids, blockSize))]
    {
      var broken_count := last_counts[6];
      if broken_count > 0 {
        raw_broken := Received(raw_broken, written);
        var spawns := BreakObjects(raw_broken, solid, ids, blockSize);
        channels.load_queue := channels.load_queue + [Batch(spawns)];
        raw_broken := raw_broken.(entity_types := seq(|raw_broken.entity_types|, _ => -1));
      }
    }
  }

  /** The loop of unload_broken: the pieces of each object up to the first -1 type, in order. */
  method BreakObjects(raw: BrokenRaw, solid: int -> bool, ids: ShapeIds, blockSize: real) returns (spawns: seq<Spawn>)
    requires |raw.positions| == 2 * |raw.entity_types| && |raw.model_ids| == |raw.entity_types|
    ensures spawns == BrokenPieces(raw, 0, Live(raw.entity_types), solid, ids, blockSize)
  {
    var live := Live(raw.entity_types);
    spawns := [];
    var i := 0;
    while i < |raw.entity_types| && raw.entity_types[i] != -1
      invariant 0 <= i <= live
      invariant BrokenPieces(raw, 0, live, solid, ids, blockSize) == spawns + BrokenPieces(raw, i, live, solid, ids, blockSize)
      decreases |raw.entity_types| - i
    {
      var entity_type := raw.entity_types[i];
      var x := raw.positions[2 * i];
      var y := raw.positions[2 * i + 1];
      var m := raw.model_ids[i];
      var pieces := Pieces(x, y, entity_type, m, solid(entity_type), ids, blockSize);
      assert spawns + BrokenPieces(raw, i, live, solid, ids, blockSize)
             == (spawns + pieces) + BrokenPieces(raw, i + 1, live, solid, ids, blockSize);
      spawns := spawns + pieces;
      i := i + 1;
    }
    assert spawns + [] == spawns;
  }

  /** Reads entity o out of the staging arrays: its bones, then its hulls. */
  method ReadEntity(raw: RawArrays, o: int) returns (r: Read<UnloadedEntity>)
    ensures r == EntityAt(raw, o)
  {
    if !EntityFieldsIn(raw, o) {
      return Thrown(IndexOutOfBounds);
    }
    var entity_bone_table_x, entity_bone_table_y := raw.entity_bone_table[2 * o], raw.entity_bone_table[2 * o + 1];
    var entity_hull_table_x, entity_hull_table_y := raw.entity_hull_table[2 * o], raw.entity_hull_table[2 * o + 1];
    var entity_bone_table_length := entity_bone_table_y - entity_bone_table_x + 1;
    if entity_bone_table_length < 0 {
      return Thrown(NegativeArraySize(entity_bone_table_length));
    }
    if entity_hull_table_y - entity_hull_table_x + 1 < 0 {
      return Thrown(NegativeArraySize(entity_hull_table_y - entity_hull_table_x + 1));
    }
    if entity_bone_table_length > 0 && |raw.entity_bone| == 0 {
      return Thrown(UnexpectedBoneTableSize(entity_bone_table_length));
    }
    var entity_bones := ReadEntityBones(raw, entity_bone_table_x, entity_bone_table_y);
    if entity_bones.Thrown? {
      return Thrown(entity_bones.fault);
    }
    var entity_hulls := ReadHulls(raw, entity_hull_table_x, entity_hull_table_y);
    if entity_hulls.Thrown? {
      return Thrown(entity_hulls.fault);
    }
    r := Read(UnloadedEntity(raw.entity[4 * o], raw.entity[4 * o + 1], raw.entity[4 * o + 2], raw.entity[4 * o + 3],
                             raw.entity_anim_time[2 * o], raw.entity_anim_time[2 * o + 1],
                             raw.entity_prev_time[2 * o], raw.entity_prev_time[2 * o + 1],
                             raw.entity_motion_state[2 * o], raw.entity_motion_state[2 * o + 1],
                             raw.entity_anim_layers[2 * o], raw.entity_anim_layers[2 * o + 1],
                             raw.entity_anim_previous[2 * o], raw.entity_anim_previous[2 * o + 1],
                             raw.entity_model_id[o], raw.entity_model_transform[o],
                             raw.entity_mass[o], raw.entity_root_hull[o] - entity_hull_table_x,
                             raw.entity_type[o], raw.entity_flag[o],
                             entity_hulls.value, entity_bones.value));
  }

  /** The bone loop: entity bones first to last, stopping at the first that throws. */
  method ReadEntityBones(raw: RawArrays, first: int, last: int) returns (r: Read<seq<UnloadedEntityBone>>)
    ensures r == EntityBoneRun(raw, first, last)
  {
    var bones: seq<UnloadedEntityBone> := [];
    var offset := first;
    AfterEnds(bones, EntityBoneRun(raw, first, last));
    while offset <= last
      invariant EntityBoneRun(raw, first, last) == After(bones, EntityBoneRun(raw, offset, last))
      decreases last - offset
    {
      var bone := EntityBoneAt(raw, offset);
      AfterCons(bones, bone, EntityBoneRun(raw, offset + 1, last));
      if bone.Thrown? {
        return Thrown(bone.fault);
      }
      bones := bones + [bone.value];
      offset := offset + 1;
    }
    AfterEnds(bones, Read([]));
    r := Read(bones);
  }

  /** The hull loop: each hull read with its own point, edge and bone loops. */
  method ReadHulls(raw: RawArrays, first: int, last: int) returns (r: Read<seq<UnloadedHull>>)
    ensures r == HullRun(raw, first, last)
  {
    var hulls: seq<UnloadedHull> := [];
    var offset := first;
    AfterEnds(hulls, HullRun(raw, first, last));
    while offset <= last
      invariant HullRun(raw, first, last) == After(hulls, HullRun(raw, offset, last))
      decreases last - offset
    {
      var hull := ReadHull(raw, offset);
      AfterCons(hulls, hull, HullRun(raw, offset + 1, last));
      if hull.Thrown? {
        return Thrown(hull.fault);
      }
      hulls := hulls + [hull.value];
      offset := offset + 1;
    }
    AfterEnds(hulls, Read([]));
    r := Read(hulls);
  }

  /** Reads hull o: its points, then its edges, then its bones. */
  method ReadHull(raw: RawArrays, o: int) returns (r: Read<UnloadedHull>)
    ensures r == HullAt(raw, o)
  {
    if !HullFieldsIn(raw, o) {
      return Thrown(IndexOutOfBounds);
    }
    var hull_point_table_x, hull_point_table_y := raw.hull_point_table[2 * o], raw.hull_point_table[2 * o + 1];
    var hull_edge_table_x, hull_edge_table_y := raw.hull_edge_table[2 * o], raw.hull_edge_table[2 * o + 1];
    var hull_bone_table_x, hull_bone_table_y := raw.hull_bone_table[2 * o], raw.hull_bone_table[2 * o + 1];
    if hull_point_table_y - hull_point_table_x + 1 < 0 {
      return Thrown(NegativeArraySize(hull_point_table_y - hull_point_table_x + 1));
    }
    if hull_edge_table_y - hull_edge_table_x + 1 < 0 {
      return Thrown(NegativeArraySize(hull_edge_table_y - hull_edge_table_x + 1));
    }
    if hull_bone_table_y - hull_bone_table_x + 1 < 0 {
      return Thrown(NegativeArraySize(hull_bone_table_y - hull_bone_table_x + 1));
    }
    var hull_points := ReadPoints(raw, hull_point_table_x, hull_point_table_y);
    if hull_points.Thrown? {
      return Thrown(hull_points.fault);
    }
    var hull_edges := ReadEdges(raw, hull_point_table_x, hull_edge_table_x, hull_edge_table_y);
    if hull_edges.Thrown? {
      return Thrown(hull_edges.fault);
    }
    var hull_bones := ReadHullBones(raw, hull_bone_table_x, hull_bone_table_y);
    if hull_bones.Thrown? {
      return Thrown(hull_bones.fault);
    }
    r := Read(UnloadedHull(raw.hull[4 * o], raw.hull[4 * o + 1], raw.hull[4 * o + 2], raw.hull[4 * o + 3],
                           raw.hull_scale[2 * o], raw.hull_scale[2 * o + 1],
                           raw.hull_rotation[2 * o], raw.hull_rotation[2 * o + 1],
                           raw.hull_friction[o], raw.hull_restitution[o], raw.hull_integrity[o],
                           raw.hull_mesh_id[o], raw.hull_entity_id[o], raw.hull_uv_offset[o], raw.hull_flag[o],
                           hull_points.value, hull_edges.value, hull_bones.value));
  }

  /** The point loop: points first to last, stopping at the first that throws. */
  method ReadPoints(raw: RawArrays, first: int, last: int) returns (r: Read<seq<UnloadedPoint>>)
    ensures r == PointRun(raw, first, last)
  {
    var points: seq<UnloadedPoint> := [];
    var offset := first;
    AfterEnds(points, PointRun(raw, first, last));
    while offset <= last
      invariant PointRun(raw, first, last) == After(points, PointRun(raw, offset, last))
      decreases last - offset
    {
      var point := PointAt(raw, offset);
      AfterCons(points, point, PointRun(raw, offset + 1, last));
      if point.Thrown? {
        return Thrown(point.fault);
      }
      points := points + [point.value];
      offset := offset + 1;
    }
    AfterEnds(points, Read([]));
    r := Read(points);
  }

  /** The edge loop: edges first to last, their end points rebased by the hull's first point. */
  method ReadEdges(raw: RawArrays, firstPoint: int, first: int, last: int) returns (r: Read<seq<UnloadedEdge>>)
    ensures r == EdgeRun(raw, firstPoint, first, last)
  {
    var edges: seq<UnloadedEdge> := [];
    var offset := first;
    AfterEnds(edges, EdgeRun(raw, firstPoint, first, last));
    while offset <= last
      invariant EdgeRun(raw, firstPoint, first, last) == After(edges, EdgeRun(raw, firstPoint, offset, last))
      decreases last - offset
    {
      var edge := EdgeAt(raw, firstPoint, offset);
      AfterCons(edges, edge, EdgeRun(raw, firstPoint, offset + 1, last));
      if edge.Thrown? {
        return Thrown(edge.fault);
      }
      edges := edges + [edge.value];
      offset := offset + 1;
    }
    AfterEnds(edges, Read([]));
    r := Read(edges);
  }

  /** The hull bone loop: hull bones first to last, stopping at the first that throws. */
  method ReadHullBones(raw: RawArrays, first: int, last: int) returns (r: Read<seq<UnloadedHullBone>>)
    ensures r == HullBoneRun(raw, first, last)
  {
    var bones: seq<UnloadedHullBone> := [];
    var offset := first;
    AfterEnds(bones, HullBoneRun(raw, first, last));
    while offset <= last
      invariant HullBoneRun(raw, first, last) == After(bones, HullBoneRun(raw, offset, last))
      decreases last - offset
    {
      var bone := HullBoneAt(raw, offset);
      AfterCons(bones, bone, HullBoneRun(raw, offset + 1, last));
      if bone.Thrown? {
        return Thrown(bone.fault);
      }
      bones := bones + [bone.value];
      offset := offset + 1;
    }
    AfterEnds(bones, Read([]));
    r := Read(bones);
  }
}
