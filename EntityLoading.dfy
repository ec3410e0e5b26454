/**
 * load_entity (physics/PhysicsObjects.java): re-creating an unloaded entity,
 * with all its bones, hulls, points and edges, in a sector container.
 */
module EntityLoading {
  import opened PhysicsObjects
  import SlotCounters

  /* ---- load_entity: re-creating an unloaded entity in a sector container ---- */

  /** An unloaded entity bone: the bone reference, the parent's position in the entity's bone list (-1 for none), the bone matrix. */
  datatype UnloadedEntityBone = UnloadedEntityBone(reference: int, parent: int, bone: seq<real>)

  /** An unloaded hull bone: its matrix, its bind bone's position in the entity's bone list, its inverse bind pose. */
  datatype UnloadedHullBone = UnloadedHullBone(boneData: seq<real>, bindId: int, invBindId: int)

  /** An unloaded point: position, four bone slots (positions in the hull's bone list, -1 for none), vertex reference, hit count, flags. */
  datatype UnloadedPoint = UnloadedPoint(x: real, y: real, z: real, w: real,
                                         bone1: int, bone2: int, bone3: int, bone4: int,
                                         vertexReference: int, hitCount: int, flags: int)

  /** An unloaded edge: its end points as positions in the hull's point list. */
  datatype UnloadedEdge = UnloadedEdge(p1: int, p2: int, length: real, flags: int)

  datatype UnloadedHull = UnloadedHull(x: real, y: real, z: real, w: real, scaleX: real, scaleY: real,
                                       rotationX: real, rotationY: real, meshId: int, friction: real,
                                       restitution: real, uvOffset: int, flags: int,
                                       points: seq<UnloadedPoint>, edges: seq<UnloadedEdge>,
                                       bones: seq<UnloadedHullBone>)

  datatype UnloadedEntity = UnloadedEntity(x: real, y: real, z: real, w: real, mass: real, animIndex: int,
                                           animElapsed: real, rootHull: int, modelId: int, modelTransformId: int,
                                           entityType: int, flags: int,
                                           hulls: seq<UnloadedHull>, bones: seq<UnloadedEntityBone>)

  /** The next free id of each kind in the container: the allocators' slot counters. */
  type NextIds = SlotCounters.Counters

  /** One object the container was asked to create, with the arguments it got. */
  datatype Created =
    | EntityBoneMade(id: int, reference: int, parent: int, bone: seq<real>)
    | HullBoneMade(id: int, boneData: seq<real>, bindId: int, invBindId: int)
    | PointMade(id: int, position: seq<real>, boneTable: seq<int>, vertexReference: int, hull: int,
                hitCount: int, flags: int)
    | EdgeMade(id: int, p1: int, p2: int, length: real, flags: int)
    | HullMade(id: int, meshId: int, position: seq<real>, scale: seq<real>, rotation: seq<real>,
               pointTable: seq<int>, edgeTable: seq<int>, boneTable: seq<int>, friction: real,
               restitution: real, entity: int, uvOffset: int, flags: int)
    | EntityMade(id: int, position: seq<real>, hullTable: seq<int>, boneTable: seq<int>, mass: real,
                 animIndex: int, animElapsed: real, rootHull: int, modelId: int, modelTransformId: int,
                 entityType: int, flags: int)

  /**
   * The sector container load_entity writes into. Its implementation is not
   * part of this model; it stands here as the bump allocator every shown
   * container is: each create_* hands out its kind's next id and records
   * what it was asked to create.
   */
  class Container {
    var next: NextIds
    var created: seq<Created>

    constructor (start: NextIds)
      ensures next == start && created == []
    {
      next := start;
      created := [];
    }

    method CreateEntityBone(reference: int, parent: int, bone: seq<real>) returns (id: int)
      modifies this
      ensures id == old(next.entityBone) && next == old(next).(entityBone := id + 1)
      ensures created == old(created) + [EntityBoneMade(id, reference, parent, bone)]
    {
      id := next.entityBone;
      next := next.(entityBone := id + 1);
      created := created + [EntityBoneMade(id, reference, parent, bone)];
    }

    method CreateHullBone(boneData: seq<real>, bindId: int, invBindId: int) returns (id: int)
      modifies this
      ensures id == old(next.hullBone) && next == old(next).(hullBone := id + 1)
      ensures created == old(created) + [HullBoneMade(id, boneData, bindId, invBindId)]
    {
      id := next.hullBone;
      next := next.(hullBone := id + 1);
      created := created + [HullBoneMade(id, boneData, bindId, invBindId)];
    }

    method CreatePoint(position: seq<real>, boneTable: seq<int>, vertexReference: int, hull: int,
                       hitCount: int, flags: int) returns (id: int)
      modifies this
      ensures id == old(next.point) && next == old(next).(point := id + 1)
      ensures created == old(created) + [PointMade(id, position, boneTable, vertexReference, hull, hitCount, flags)]
    {
      id := next.point;
      next := next.(point := id + 1);
      created := created + [PointMade(id, position, boneTable, vertexReference, hull, hitCount, flags)];
    }

    method CreateEdge(p1: int, p2: int, length: real, flags: int) returns (id: int)
      modifies this
      ensures id == old(next.edge) && next == old(next).(edge := id + 1)
      ensures created == old(created) + [EdgeMade(id, p1, p2, length, flags)]
    {
      id := next.edge;
      next := next.(edge := id + 1);
      created := created + [EdgeMade(id, p1, p2, length, flags)];
    }

    method CreateHull(meshId: int, position: seq<real>, scale: seq<real>, rotation: seq<real>,
                      pointTable: seq<int>, edgeTable: seq<int>, boneTable: seq<int>, friction: real,
                      restitution: real, entity: int, uvOffset: int, flags: int) returns (id: int)
      modifies this
      ensures id == old(next.hull) && next == old(next).(hull := id + 1)
      ensures created == old(created) + [HullMade(id, meshId, position, scale, rotation, pointTable, edgeTable,
                                                  boneTable, friction, restitution, entity, uvOffset, flags)]
    {
      id := next.hull;
      next := next.(hull := id + 1);
      created := created + [HullMade(id, meshId, position, scale, rotation, pointTable, edgeTable,
                                     boneTable, friction, restitution, entity, uvOffset, flags)];
    }

    method CreateEntity(position: seq<real>, hullTable: seq<int>, boneTable: seq<int>, mass: real,
                        animIndex: int, animElapsed: real, rootHull: int, modelId: int, modelTransformId: int,
                        entityType: int, flags: int) returns (id: int)
      modifies this
      ensures id == old(next.entity) && next == old(next).(entity := id + 1)
      ensures created == old(created) + [EntityMade(id, position, hullTable, boneTable, mass, animIndex, animElapsed,
                                                    rootHull, modelId, modelTransformId, entityType, flags)]
    {
      id := next.entity;
      next := next.(entity := id + 1);
      created := created + [EntityMade(id, position, hullTable, boneTable, mass, animIndex, animElapsed,
                                       rootHull, modelId, modelTransformId, entityType, flags)];
    }
  }

  /** An offset get_index can look up in a list of n ids. */
  predicate BoneSlot(offset: int, n: int)
  {
    offset == -1 || 0 <= offset < n
  }

  /** A hull whose bones bind to entity bones, whose points name its own bones and whose edges join its own points. */
  predicate HullWellFormed(h: UnloadedHull, entityBones: int)
  {
    && (forall b :: b in h.bones ==> 0 <= b.bindId < entityBones)
    && (forall p :: p in h.points ==> PointBonesIn(p, |h.bones|))
    && (forall e :: e in h.edges ==> 0 <= e.p1 < |h.points| && 0 <= e.p2 < |h.points|)
  }

  /**
   * An entity load_entity can re-create: every position it looks up lies in
   * the list it is looked up in (the lookups are array reads), and the root
   * hull is one of its hulls.
   */
  predicate EntityWellFormed(e: UnloadedEntity)
  {
    && (forall b :: b in e.bones ==> BoneSlot(b.parent, |e.bones|))
    && (forall h :: h in e.hulls ==> HullWellFormed(h, |e.bones|))
    && 0 <= e.rootHull < |e.hulls|
  }

  /**
   * The entity bone ids as load_entity's array holds them after i bones:
   * the ids handed out so far, and the array's initial zeros after them.
   */
  function BoneIdsSoFar(start: int, n: nat, i: nat): (r: seq<int>)
    ensures |r| == n
  {
    seq(n, j requires 0 <= j < n => if j < i then start + j else 0)
  }

  /** The record of entity bone j; a parent not created yet reads the array's zero. */
  function EntityBoneRecord(bones: seq<UnloadedEntityBone>, start: int, j: nat): Created
    requires j < |bones| && forall b :: b in bones ==> BoneSlot(b.parent, |bones|)
  {
    assert bones[j] in bones;
    var ids := BoneIdsSoFar(start, |bones|, j);
    assert |ids| == |bones| && BoneSlot(bones[j].parent, |bones|);
    EntityBoneMade(start + j, bones[j].reference, GetIndex(bones[j].parent, ids), bones[j].bone)
  }

  /** The records of the first i entity bones. */
  function EntityBoneRecords(bones: seq<UnloadedEntityBone>, start: int, i: nat): (r: seq<Created>)
    requires i <= |bones| && forall b :: b in bones ==> BoneSlot(b.parent, |bones|)
  {
    if i == 0 then [] else EntityBoneRecords(bones, start, i - 1) + [EntityBoneRecord(bones, start, i - 1)]
  }

  /** The record of hull bone j: it binds to the id its entity bone got. */
  function HullBoneRecord(bones: seq<UnloadedHullBone>, ebIds: seq<int>, start: int, j: nat): Created
    requires j < |bones| && forall b :: b in bones ==> 0 <= b.bindId < |ebIds|
  {
    assert bones[j] in bones;
    HullBoneMade(start + j, bones[j].boneData, ebIds[bones[j].bindId], bones[j].invBindId)
  }

  /** The records of the first i hull bones. */
  function HullBoneRecords(bones: seq<UnloadedHullBone>, ebIds: seq<int>, start: int, i: nat): (r: seq<Created>)
    requires i <= |bones| && forall b :: b in bones ==> 0 <= b.bindId < |ebIds|
  {
    if i == 0 then [] else HullBoneRecords(bones, ebIds, start, i - 1) + [HullBoneRecord(bones, ebIds, start, i - 1)]
  }

  /** A point whose four bone slots can be looked up in a list of n hull bone ids. */
  predicate PointBonesIn(p: UnloadedPoint, n: int)
  {
    BoneSlot(p.bone1, n) && BoneSlot(p.bone2, n) && BoneSlot(p.bone3, n) && BoneSlot(p.bone4, n)
  }

  /** A point's bone table: each slot's hull bone id. */
  function PointBoneTable(p: UnloadedPoint, hbIds: seq<int>): seq<int>
    requires PointBonesIn(p, |hbIds|)
  {
    [GetIndex(p.bone1, hbIds), GetIndex(p.bone2, hbIds), GetIndex(p.bone3, hbIds), GetIndex(p.bone4, hbIds)]
  }

  /** The record of point j of a hull: bone slots become hull bone ids, and it names the hull about to be created. */
  function PointRecord(points: seq<UnloadedPoint>, hbIds: seq<int>, start: int, hull: int, j: nat): Created
    requires j < |points| && forall p :: p in points ==> PointBonesIn(p, |hbIds|)
  {
    assert points[j] in points;
    PointMade(start + j, [points[j].x, points[j].y, points[j].z, points[j].w],
              PointBoneTable(points[j], hbIds), points[j].vertexReference, hull, points[j].hitCount, points[j].flags)
  }

  /** The records of the first i points of a hull. */
  function PointRecords(points: seq<UnloadedPoint>, hbIds: seq<int>, start: int, hull: int, i: nat): (r: seq<Created>)
    requires i <= |points| && forall p :: p in points ==> PointBonesIn(p, |hbIds|)
  {
    if i == 0 then [] else PointRecords(points, hbIds, start, hull, i - 1) + [PointRecord(points, hbIds, start, hull, i - 1)]
  }

  /** The record of edge j of a hull: its end point positions become the ids the hull's points got. */
  function EdgeRecord(edges: seq<UnloadedEdge>, hpIds: seq<int>, start: int, j: nat): Created
    requires j < |edges| && forall e :: e in edges ==> 0 <= e.p1 < |hpIds| && 0 <= e.p2 < |hpIds|
  {
    assert edges[j] in edges;
    EdgeMade(start + j, hpIds[edges[j].p1], hpIds[edges[j].p2], edges[j].length, edges[j].flags)
  }

  /** The records of the first i edges of a hull. */
  function EdgeRecords(edges: seq<UnloadedEdge>, hpIds: seq<int>, start: int, i: nat): (r: seq<Created>)
    requires i <= |edges| && forall e :: e in edges ==> 0 <= e.p1 < |hpIds| && 0 <= e.p2 < |hpIds|
  {
    if i == 0 then [] else EdgeRecords(edges, hpIds, start, i - 1) + [EdgeRecord(edges, hpIds, start, i - 1)]
  }

  /** Everything loading one hull creates, in order, when the container's next ids are n. */
  function HullRecords(h: UnloadedHull, ebIds: seq<int>, n: NextIds): (r: seq<Created>)
    requires HullWellFormed(h, |ebIds|)
  {
    HullBoneRecords(h.bones, ebIds, n.hullBone, |h.bones|)
    + PointRecords(h.points, Consecutive(n.hullBone, |h.bones|), n.point, n.hull, |h.points|)
    + EdgeRecords(h.edges, Consecutive(n.point, |h.points|), n.edge, |h.edges|)
    + [HullMade(n.hull, h.meshId, [h.x, h.y, h.z, h.w], [h.scaleX, h.scaleY], [h.rotationX, h.rotationY],
                MakeTable(Consecutive(n.point, |h.points|)), MakeTable(Consecutive(n.edge, |h.edges|)),
                MakeTable(Consecutive(n.hullBone, |h.bones|)), h.friction, h.restitution,
                n.entity, h.uvOffset, h.flags)]
  }

  /** The container's next ids after loading one hull. */
  function AfterHull(h: UnloadedHull, n: NextIds): NextIds
  {
    n.(point := n.point + |h.points|, edge := n.edge + |h.edges|,
       hullBone := n.hullBone + |h.bones|, hull := n.hull + 1)
  }

  /** The container's next ids after loading the first i hulls. */
  function HullsNext(hulls: seq<UnloadedHull>, n: NextIds, i: nat): NextIds
    requires i <= |hulls|
  {
    if i == 0 then n else AfterHull(hulls[i - 1], HullsNext(hulls, n, i - 1))
  }

  /** Everything loading the first i hulls creates. */
  function HullsRecords(hulls: seq<UnloadedHull>, ebIds: seq<int>, n: NextIds, i: nat): seq<Created>
    requires i <= |hulls| && forall h :: h in hulls ==> HullWellFormed(h, |ebIds|)
  {
    if i == 0 then []
    else
      assert hulls[i - 1] in hulls;
      HullsRecords(hulls, ebIds, n, i - 1) + HullRecords(hulls[i - 1], ebIds, HullsNext(hulls, n, i - 1))
  }

  /** The container's next ids once the entity's bones are created. */
  function AfterEntityBones(e: UnloadedEntity, n: NextIds): NextIds
  {
    n.(entityBone := n.entityBone + |e.bones|)
  }

  /** Everything load_entity creates, in order, when the container's next ids are n. */
  function EntityRecords(e: UnloadedEntity, n: NextIds): seq<Created>
    requires EntityWellFormed(e)
  {
    EntityBoneRecords(e.bones, n.entityBone, |e.bones|)
    + HullsRecords(e.hulls, Consecutive(n.entityBone, |e.bones|), AfterEntityBones(e, n), |e.hulls|)
    + [EntityMade(n.entity, [e.x, e.y, e.z, e.w], MakeTable(Consecutive(n.hull, |e.hulls|)),
                  MakeTable(Consecutive(n.entityBone, |e.bones|)), e.mass, e.animIndex, e.animElapsed,
                  Consecutive(n.hull, |e.hulls|)[e.rootHull], e.modelId, e.modelTransformId, e.entityType, e.flags)]
  }

  /** The container's next ids after load_entity. */
  function AfterEntity(e: UnloadedEntity, n: NextIds): NextIds
  {
    HullsNext(e.hulls, AfterEntityBones(e, n), |e.hulls|).(entity := n.entity + 1)
  }

  /* ---- load_entity, step by step ---- */

  method LoadEntityBones(world: Container, bones: seq<UnloadedEntityBone>) returns (ebIds: seq<int>)
    requires forall b :: b in bones ==> BoneSlot(b.parent, |bones|)
    modifies world
    ensures ebIds == Consecutive(old(world.next.entityBone), |bones|)
    ensures world.next == old(world.next).(entityBone := old(world.next.entityBone) + |bones|)
    ensures world.created == old(world.created) + EntityBoneRecords(bones, old(world.next.entityBone), |bones|)
  {
    var start := world.next.entityBone;
    ebIds := seq(|bones|, _ => 0);
    var i := 0;
    while i < |bones|
      invariant 0 <= i <= |bones|
      invariant ebIds == BoneIdsSoFar(start, |bones|, i)
      invariant world.next == old(world.next).(entityBone := start + i)
      invariant world.created == old(world.created) + EntityBoneRecords(bones, start, i)
    {
      assert bones[i] in bones;
      var parent := GetIndex(bones[i].parent, ebIds);
      var id := world.CreateEntityBone(bones[i].reference, parent, bones[i].bone);
      ebIds := ebIds[i := id];
      i := i + 1;
    }
  }

  method LoadHullBones(world: Container, bones: seq<UnloadedHullBone>, ebIds: seq<int>) returns (hbIds: seq<int>)
    requires forall b :: b in bones ==> 0 <= b.bindId < |ebIds|
    modifies world
    ensures hbIds == Consecutive(old(world.next.hullBone), |bones|)
    ensures world.next == old(world.next).(hullBone := old(world.next.hullBone) + |bones|)
    ensures world.created == old(world.created) + HullBoneRecords(bones, ebIds, old(world.next.hullBone), |bones|)
  {
    var start := world.next.hullBone;
    hbIds := [];
    var i := 0;
    while i < |bones|
      invariant 0 <= i <= |bones|
      invariant hbIds == Consecutive(start, i)
      invariant world.next == old(world.next).(hullBone := start + i)
      invariant world.created == old(world.created) + HullBoneRecords(bones, ebIds, start, i)
    {
      assert bones[i] in bones;
      var bindId := ebIds[bones[i].bindId];
      var id := world.CreateHullBone(bones[i].boneData, bindId, bones[i].invBindId);
      ConsecutiveNext(start, i);
      hbIds := hbIds + [id];
      i := i + 1;
    }
  }

  method LoadPoints(world: Container, points: seq<UnloadedPoint>, hbIds: seq<int>) returns (hpIds: seq<int>)
    requires forall p :: p in points ==> PointBonesIn(p, |hbIds|)
    modifies world
    ensures hpIds == Consecutive(old(world.next.point), |points|)
    ensures world.next == old(world.next).(point := old(world.next.point) + |points|)
    ensures world.created == old(world.created) + PointRecords(points, hbIds, old(world.next.point), old(world.next.hull), |points|)
  {
    var start := world.next.point;
    hpIds := [];
    var i := 0;
    while i < |points|
      invariant 0 <= i <= |points|
      invariant hpIds == Consecutive(start, i)
      invariant world.next == old(world.next).(point := start + i)
      invariant world.created == old(world.created) + PointRecords(points, hbIds, start, old(world.next.hull), i)
    {
      var p := points[i];
      assert p in points;
      var boneTable := [GetIndex(p.bone1, hbIds), GetIndex(p.bone2, hbIds), GetIndex(p.bone3, hbIds), GetIndex(p.bone4, hbIds)];
      var position := [p.x, p.y, p.z, p.w];
      var id := world.CreatePoint(position, boneTable, p.vertexReference, world.next.hull, p.hitCount, p.flags);
      ConsecutiveNext(start, i);
      hpIds := hpIds + [id];
      i := i + 1;
    }
  }

  method LoadEdges(world: Container, edges: seq<UnloadedEdge>, hpIds: seq<int>) returns (heIds: seq<int>)
    requires forall e :: e in edges ==> 0 <= e.p1 < |hpIds| && 0 <= e.p2 < |hpIds|
    modifies world
    ensures heIds == Consecutive(old(world.next.edge), |edges|)
    ensures world.next == old(world.next).(edge := old(world.next.edge) + |edges|)
    ensures world.created == old(world.created) + EdgeRecords(edges, hpIds, old(world.next.edge), |edges|)
  {
    var start := world.next.edge;
    heIds := [];
    var i := 0;
    while i < |edges|
      invariant 0 <= i <= |edges|
      invariant heIds == Consecutive(start, i)
      invariant world.next == old(world.next).(edge := start + i)
      invariant world.created == old(world.created) + EdgeRecords(edges, hpIds, start, i)
    {
      var e := edges[i];
      assert e in edges;
      var id := world.CreateEdge(hpIds[e.p1], hpIds[e.p2], e.length, e.flags);
      ConsecutiveNext(start, i);
      heIds := heIds + [id];
      i := i + 1;
    }
  }

  /** One pass of load_entity's hull loop: the hull's bones, points and edges, then the hull itself. */
  method LoadHull(world: Container, h: UnloadedHull, ebIds: seq<int>) returns (id: int)
    requires HullWellFormed(h, |ebIds|)
    modifies world
    ensures id == old(world.next.hull)
    ensures world.next == AfterHull(h, old(world.next))
    ensures world.created == old(world.created) + HullRecords(h, ebIds, old(world.next))
  {
    var hbIds := LoadHullBones(world, h.bones, ebIds);
    var hpIds := LoadPoints(world, h.points, hbIds);
    var heIds := LoadEdges(world, h.edges, hpIds);
    id := world.CreateHull(h.meshId, [h.x, h.y, h.z, h.w], [h.scaleX, h.scaleY], [h.rotationX, h.rotationY],
                           MakeTable(hpIds), MakeTable(heIds), MakeTable(hbIds), h.friction, h.restitution,
                           world.next.entity, h.uvOffset, h.flags);
  }

  /**
   * load_entity: re-creates an unloaded entity in the container, bones
   * first, then each hull with its bones, points and edges, then the entity,
   * remapping every stored position to the id the container handed out.
   */
  method LoadEntity(world: Container, e: UnloadedEntity)
    requires EntityWellFormed(e)
    modifies world
    ensures world.next == AfterEntity(e, old(world.next))
    ensures world.created == old(world.created) + EntityRecords(e, old(world.next))
  {
    ghost var n := world.next;
    var ebIds := LoadEntityBones(world, e.bones);
    var ehIds := LoadHulls(world, e.hulls, ebIds);
    HullsNextIds(e.hulls, AfterEntityBones(e, n), |e.hulls|);
    var id := world.CreateEntity([e.x, e.y, e.z, e.w], MakeTable(ehIds), MakeTable(ebIds), e.mass, e.animIndex,
                                 e.animElapsed, ehIds[e.rootHull], e.modelId, e.modelTransformId, e.entityType, e.flags);
  }

  /** The container and the hull id list after the first i of the hulls are loaded, from next ids n and records made. */
  predicate HullsLoaded(next: NextIds, created: seq<Created>, ehIds: seq<int>, hulls: seq<UnloadedHull>,
                        ebIds: seq<int>, n: NextIds, made: seq<Created>, i: nat)
    requires i <= |hulls| && forall h :: h in hulls ==> HullWellFormed(h, |ebIds|)
  {
    && next == HullsNext(hulls, n, i)
    && created == made + HullsRecords(hulls, ebIds, n, i)
    && ehIds == Consecutive(n.hull, i)
  }

  /** load_entity's hull loop. */
  method LoadHulls(world: Container, hulls: seq<UnloadedHull>, ebIds: seq<int>) returns (ehIds: seq<int>)
    requires forall h :: h in hulls ==> HullWellFormed(h, |ebIds|)
    modifies world
    ensures HullsLoaded(world.next, world.created, ehIds, hulls, ebIds, old(world.next), old(world.created), |hulls|)
  {
    ghost var n := world.next;
    ghost var made := world.created;
    ehIds := [];
    var i := 0;
    while i < |hulls|
      invariant i <= |hulls| && HullsLoaded(world.next, world.created, ehIds, hulls, ebIds, n, made, i)
    {
      ehIds := LoadHullStep(world, hulls, ebIds, n, made, ehIds, i);
      i := i + 1;
    }
  }

  /** One pass of the hull loop. */
  method LoadHullStep(world: Container, hulls: seq<UnloadedHull>, ebIds: seq<int>,
                      ghost n: NextIds, ghost made: seq<Created>, ehIds: seq<int>, i: nat) returns (ehIds': seq<int>)
    requires i < |hulls| && forall h :: h in hulls ==> HullWellFormed(h, |ebIds|)
    requires HullsLoaded(world.next, world.created, ehIds, hulls, ebIds, n, made, i)
    modifies world
    ensures HullsLoaded(world.next, world.created, ehIds', hulls, ebIds, n, made, i + 1)
  {
    assert hulls[i] in hulls;
    HullsNextIds(hulls, n, i);
    ghost var before := world.created;
    var id := LoadHull(world, hulls[i], ebIds);
    HullsRecordsNext(hulls, ebIds, n, i, made, before, world.created);
    ConsecutiveNext(n.hull, i);
    ehIds' := ehIds + [id];
  }

  lemma HullsRecordsNext(hulls: seq<UnloadedHull>, ebIds: seq<int>, n: NextIds, i: nat,
                         made: seq<Created>, before: seq<Created>, after: seq<Created>)
    requires i < |hulls| && forall h :: h in hulls ==> HullWellFormed(h, |ebIds|)
    requires before == made + HullsRecords(hulls, ebIds, n, i)
    requires after == before + HullRecords(hulls[i], ebIds, HullsNext(hulls, n, i))
    ensures after == made + HullsRecords(hulls, ebIds, n, i + 1)
  {
  }

  /** Loading hulls moves the next hull id by one per hull and leaves the next entity id alone. */
  lemma {:induction false} HullsNextIds(hulls: seq<UnloadedHull>, n: NextIds, i: nat)
    requires i <= |hulls|
    ensures HullsNext(hulls, n, i).hull == n.hull + i
    ensures HullsNext(hulls, n, i).entity == n.entity
    ensures HullsNext(hulls, n, i).entityBone == n.entityBone
  {
    if i > 0 {
      HullsNextIds(hulls, n, i - 1);
    }
  }

  /* ---- what load_entity's records promise ---- */

  lemma {:induction false} EntityBoneRecordsAt(bones: seq<UnloadedEntityBone>, start: int, i: nat)
    requires i <= |bones| && forall b :: b in bones ==> BoneSlot(b.parent, |bones|)
    ensures |EntityBoneRecords(bones, start, i)| == i
    ensures forall j :: 0 <= j < i ==> EntityBoneRecords(bones, start, i)[j] == EntityBoneRecord(bones, start, j)
  {
    if i > 0 {
      EntityBoneRecordsAt(bones, start, i - 1);
    }
  }

  lemma {:induction false} HullBoneRecordsAt(bones: seq<UnloadedHullBone>, ebIds: seq<int>, start: int, i: nat)
    requires i <= |bones| && forall b :: b in bones ==> 0 <= b.bindId < |ebIds|
    ensures |HullBoneRecords(bones, ebIds, start, i)| == i
    ensures forall j :: 0 <= j < i ==> HullBoneRecords(bones, ebIds, start, i)[j] == HullBoneRecord(bones, ebIds, start, j)
  {
    if i > 0 {
      HullBoneRecordsAt(bones, ebIds, start, i - 1);
    }
  }

  lemma {:induction false} PointRecordsAt(points: seq<UnloadedPoint>, hbIds: seq<int>, start: int, hull: int, i: nat)
    requires i <= |points| && forall p :: p in points ==> PointBonesIn(p, |hbIds|)
    ensures |PointRecords(points, hbIds, start, hull, i)| == i
    ensures forall j :: 0 <= j < i ==> PointRecords(points, hbIds, start, hull, i)[j] == PointRecord(points, hbIds, start, hull, j)
  {
    if i > 0 {
      PointRecordsAt(points, hbIds, start, hull, i - 1);
    }
  }

  lemma {:induction false} EdgeRecordsAt(edges: seq<UnloadedEdge>, hpIds: seq<int>, start: int, i: nat)
    requires i <= |edges| && forall e :: e in edges ==> 0 <= e.p1 < |hpIds| && 0 <= e.p2 < |hpIds|
    ensures |EdgeRecords(edges, hpIds, start, i)| == i
    ensures forall j :: 0 <= j < i ==> EdgeRecords(edges, hpIds, start, i)[j] == EdgeRecord(edges, hpIds, start, j)
  {
    if i > 0 {
      EdgeRecordsAt(edges, hpIds, start, i - 1);
    }
  }

  /**
   * Entity bone k gets id start + k, and its parent is the id of the
   * record of its parent bone when that bone comes before it; a parent
   * that comes later reads the id array's initial zero.
   */
  lemma EntityBoneParents(bones: seq<UnloadedEntityBone>, start: int)
    requires forall b :: b in bones ==> BoneSlot(b.parent, |bones|)
    ensures var r := EntityBoneRecords(bones, start, |bones|);
      && |r| == |bones|
      && forall k :: 0 <= k < |bones| ==>
      && r[k].EntityBoneMade?
      && r[k] == EntityBoneMade(start + k, bones[k].reference, r[k].parent, bones[k].bone)
      && (bones[k].parent == -1 ==> r[k].parent == -1)
      && (0 <= bones[k].parent < k ==> r[k].parent == r[bones[k].parent].id)
      && (k <= bones[k].parent ==> r[k].parent == 0)
  {
    EntityBoneRecordsAt(bones, start, |bones|);
  }

  /**
   * load_entity's edge remap: within one hull, every edge record joins the
   * ids of the point records at its two end point positions.
   */
  lemma EdgesJoinHullPoints(points: seq<UnloadedPoint>, edges: seq<UnloadedEdge>, hbIds: seq<int>,
                            pointStart: int, edgeStart: int, hull: int)
    requires forall p :: p in points ==> PointBonesIn(p, |hbIds|)
    requires forall e :: e in edges ==> 0 <= e.p1 < |points| && 0 <= e.p2 < |points|
    ensures var pr := PointRecords(points, hbIds, pointStart, hull, |points|);
      var er := EdgeRecords(edges, Consecutive(pointStart, |points|), edgeStart, |edges|);
      && |pr| == |points| && |er| == |edges|
      && forall j :: 0 <= j < |edges| ==>
           && er[j].EdgeMade? && pr[edges[j].p1].PointMade? && pr[edges[j].p2].PointMade?
           && er[j].p1 == pr[edges[j].p1].id && er[j].p2 == pr[edges[j].p2].id
  {
    PointRecordsAt(points, hbIds, pointStart, hull, |points|);
    EdgeRecordsAt(edges, Consecutive(pointStart, |points|), edgeStart, |edges|);
    forall j | 0 <= j < |edges|
      ensures 0 <= edges[j].p1 < |points| && 0 <= edges[j].p2 < |points|
    {
      assert edges[j] in edges;
    }
  }

  /**
   * Within one hull, every point record names the hull about to be created,
   * and the hull's point table spans exactly the point records' ids.
   */
  lemma PointsBelongToHull(points: seq<UnloadedPoint>, hbIds: seq<int>, pointStart: int, hull: int)
    requires forall p :: p in points ==> PointBonesIn(p, |hbIds|)
    ensures var pr := PointRecords(points, hbIds, pointStart, hull, |points|);
      && |pr| == |points|
      && (forall j :: 0 <= j < |points| ==> pr[j].PointMade? && pr[j].hull == hull && pr[j].id == pointStart + j)
      && (|points| > 0 ==> MakeTable(Consecutive(pointStart, |points|)) == [pr[0].id, pr[|points| - 1].id])
  {
    PointRecordsAt(points, hbIds, pointStart, hull, |points|);
    TableSpansConsecutive(pointStart, |points|);
  }

  /** Within one hull, every hull bone record binds to the entity bone id at its bind position. */
  lemma HullBonesBind(bones: seq<UnloadedHullBone>, ebIds: seq<int>, start: int)
    requires forall b :: b in bones ==> 0 <= b.bindId < |ebIds|
    ensures var br := HullBoneRecords(bones, ebIds, start, |bones|);
      && |br| == |bones|
      && forall j :: 0 <= j < |bones| ==> br[j].HullBoneMade? && 0 <= bones[j].bindId < |ebIds| && br[j].bindId == ebIds[bones[j].bindId]
  {
    HullBoneRecordsAt(bones, ebIds, start, |bones|);
    forall j | 0 <= j < |bones|
      ensures 0 <= bones[j].bindId < |ebIds|
    {
      assert bones[j] in bones;
    }
  }

  /**
   * The entity record comes last, with the id the container held for the
   * next entity, and its root hull is the id the root hull's record got.
   */
  lemma EntityRootIsItsHull(e: UnloadedEntity, n: NextIds)
    requires EntityWellFormed(e)
    ensures var r := EntityRecords(e, n);
      && |r| > 0 && r[|r| - 1].EntityMade? && r[|r| - 1].id == n.entity
      && r[|r| - 1].rootHull == HullsNext(e.hulls, AfterEntityBones(e, n), e.rootHull).hull
  {
    HullsNextIds(e.hulls, AfterEntityBones(e, n), e.rootHull);
  }
}
