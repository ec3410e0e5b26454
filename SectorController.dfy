/**
 * The sector controller: a bump allocator over the GPU sector buffers. It keeps
 * one "next free slot" counter per object kind; every create_* call grows the
 * kind's buffer, launches a create kernel at the current slot and hands that
 * slot out, post-incrementing the counter. Kernel launches and buffer growth
 * are recorded in `log` instead of being run.
 */
module SectorController {
  import opened SlotCounters
  import JavaNumbers

  /** One GPU-side effect issued by the controller, in issue order. */
  datatype Effect =
    | EnsureCapacity(kind: Kind, capacity: int)
    | CreatePoint(target: int, point: seq<real>, vertexReference: int, hullIndex: int,
                  hitCount: int, flags: int, boneTable: seq<int>)
    | CreateEdge(target: int, p1: int, p2: int, length: real, flags: int, pin: int)
    | CreateHull(target: int, hull: seq<real>, scale: seq<real>, rotation: seq<real>,
                 friction: real, restitution: real, pointTable: seq<int>, edgeTable: seq<int>,
                 boneTable: seq<int>, entityId: int, flags: int, meshId: int, uvOffset: int,
                 integrity: int)
    | CreateEntity(target: int, entity: seq<real>, rootHull: int, modelId: int,
                   modelTransform: int, entityType: int, flags: int, hullTable: seq<int>,
                   boneTable: seq<int>, mass: real, animationLayer: seq<int>,
                   previousLayer: seq<int>, animationTime: seq<real>, previousTime: seq<real>,
                   animationState: seq<int>)
    | CreateHullBone(target: int, bone: seq<real>, bindPoseId: int, invBindPoseId: int)
    | CreateEntityBone(target: int, bone: seq<real>, reference: int, parentId: int)

  /** Every hull starts at full integrity. */
  const InitialIntegrity := 100

  /**
   * The position a point or hull is created with: a two-element position
   * (x, y) becomes (x, y, x, y), i.e. the previous position equals the
   * current one; any other position is passed through as given.
   */
  function WithPrevious(position: seq<real>): (r: seq<real>)
  {
    if |position| == 2 then [position[0], position[1], position[0], position[1]] else position
  }

  /** A created position that started as (x, y) is at rest: its previous half equals its current half, and both hold (x, y). */
  lemma CreatedAtRest(position: seq<real>)
    requires |position| == 2
    ensures |WithPrevious(position)| == 4
    ensures WithPrevious(position)[..2] == position
    ensures WithPrevious(position)[2..] == WithPrevious(position)[..2]
  {
  }

  /** Any position that is not a pair reaches the kernel unchanged. */
  lemma NonPairPassesThrough(position: seq<real>)
    requires |position| != 2
    ensures WithPrevious(position) == position
  {
  }

  class SectorController {
    var point_index: int
    var edge_index: int
    var hull_index: int
    var entity_index: int
    var hull_bone_index: int
    var entity_bone_index: int
    /** The GPU effects issued so far. */
    var log: seq<Effect>

    /** The six counters as one value. */
    function Counters(): Counters
      reads this
    {
      SlotCounters.Counters(point_index, edge_index, hull_index, entity_index, hull_bone_index, entity_bone_index)
    }

    constructor ()
      ensures Counters() == Zero && log == []
    {
      point_index, edge_index, hull_index := 0, 0, 0;
      entity_index, hull_bone_index, entity_bone_index := 0, 0, 0;
      log := [];
    }

    method Reset()
      modifies this
      ensures Counters() == Zero
      ensures log == old(log)
    {
      point_index := 0;
      edge_index := 0;
      hull_index := 0;
      entity_index := 0;
      hull_bone_index := 0;
      entity_bone_index := 0;
    }

    method Expand(point_count: int, edge_count: int, hull_count: int, entity_count: int,
                  hull_bone_count: int, armature_bone_count: int)
      modifies this
      ensures Counters() == Expanded(old(Counters()),
        SlotCounters.Counters(point_count, edge_count, hull_count, entity_count, hull_bone_count, armature_bone_count))
      ensures log == old(log)
    {
      point_index := point_index + point_count;
      edge_index := edge_index + edge_count;
      hull_index := hull_index + hull_count;
      entity_index := entity_index + entity_count;
      hull_bone_index := hull_bone_index + hull_bone_count;
      entity_bone_index := entity_bone_index + armature_bone_count;
    }

    /** Subtracts the scan's shift counts, which arrive in the order edge, hull bone, point, hull, entity, entity bone. */
    method Compact(shift_counts: seq<int>)
      requires |shift_counts| >= 6
      modifies this
      ensures Counters() == Compacted(old(Counters()), shift_counts)
      ensures log == old(log)
    {
      edge_index := edge_index - shift_counts[0];
      hull_bone_index := hull_bone_index - shift_counts[1];
      point_index := point_index - shift_counts[2];
      hull_index := hull_index - shift_counts[3];
      entity_index := entity_index - shift_counts[4];
      entity_bone_index := entity_bone_index - shift_counts[5];
    }

    method CreatePoint(position: seq<real>, bone_ids: seq<int>, vertex_index: int, owner_hull: int,
                       hit_count: int, flags: int) returns (id: int)
      modifies this
      ensures id == old(point_index)
      ensures Counters() == old(Counters()).With(Point, old(point_index) + 1)
      ensures log == old(log) + [EnsureCapacity(Point, id + 1),
        Effect.CreatePoint(id, WithPrevious(position), vertex_index, owner_hull,
                           JavaNumbers.ToShort(hit_count), flags, bone_ids)]
    {
      log := log + [EnsureCapacity(Point, point_index + 1)];
      var new_point := WithPrevious(position);
      log := log + [Effect.CreatePoint(point_index, new_point, vertex_index, owner_hull,
                                       JavaNumbers.ToShort(hit_count), flags, bone_ids)];
      id := point_index;
      point_index := point_index + 1;
    }

    method CreateEdge(p1: int, p2: int, l: real, flags: int, edge_pin: int) returns (id: int)
      modifies this
      ensures id == old(edge_index)
      ensures Counters() == old(Counters()).With(Edge, old(edge_index) + 1)
      ensures log == old(log) + [EnsureCapacity(Edge, id + 1), Effect.CreateEdge(id, p1, p2, l, flags, edge_pin)]
    {
      log := log + [EnsureCapacity(Edge, edge_index + 1)];
      log := log + [Effect.CreateEdge(edge_index, p1, p2, l, flags, edge_pin)];
      id := edge_index;
      edge_index := edge_index + 1;
    }

    method CreateHull(mesh_id: int, position: seq<real>, scale: seq<real>, rotation: seq<real>,
                      point_table: seq<int>, edge_table: seq<int>, bone_table: seq<int>,
                      friction: real, restitution: real, entity_id: int, uv_offset: int,
                      flags: int) returns (id: int)
      modifies this
      ensures id == old(hull_index)
      ensures Counters() == old(Counters()).With(Hull, old(hull_index) + 1)
      ensures log == old(log) + [EnsureCapacity(Hull, id + 1),
        Effect.CreateHull(id, WithPrevious(position), scale, rotation, friction, restitution,
                          point_table, edge_table, bone_table, entity_id, flags, mesh_id,
                          uv_offset, InitialIntegrity)]
    {
      log := log + [EnsureCapacity(Hull, hull_index + 1)];
      var new_hull := WithPrevious(position);
      log := log + [Effect.CreateHull(hull_index, new_hull, scale, rotation, friction, restitution,
                                      point_table, edge_table, bone_table, entity_id, flags,
                                      mesh_id, uv_offset, InitialIntegrity)];
      id := hull_index;
      hull_index := hull_index + 1;
    }

    method CreateEntity(x: real, y: real, z: real, w: real, hull_table: seq<int>, bone_table: seq<int>,
                        mass: real, anim_index: int, anim_time: real, root_hull: int, model_id: int,
                        model_transform_id: int, entity_type: int, flags: int) returns (id: int)
      modifies this
      ensures id == old(entity_index)
      ensures Counters() == old(Counters()).With(Entity, old(entity_index) + 1)
      ensures log == old(log) + [EnsureCapacity(Entity, id + 1),
        Effect.CreateEntity(id, [x, y, z, w], root_hull, model_id, model_transform_id, entity_type,
                            flags, hull_table, bone_table, mass, [anim_index, 0, 0, 0],
                            [-1, -1, -1, -1], [anim_time, 0.0, 0.0, 0.0], [0.0, 0.0, 0.0, 0.0], [0, 0])]
    {
      log := log + [EnsureCapacity(Entity, entity_index + 1)];
      log := log + [Effect.CreateEntity(entity_index, [x, y, z, w], root_hull, model_id,
                                        model_transform_id, entity_type, flags, hull_table,
                                        bone_table, mass, [anim_index, 0, 0, 0], [-1, -1, -1, -1],
                                        [anim_time, 0.0, 0.0, 0.0], [0.0, 0.0, 0.0, 0.0], [0, 0])];
      id := entity_index;
      entity_index := entity_index + 1;
    }

    method CreateHullBone(bone_data: seq<real>, bind_pose_id: int, inv_bind_pose_id: int) returns (id: int)
      modifies this
      ensures id == old(hull_bone_index)
      ensures Counters() == old(Counters()).With(HullBone, old(hull_bone_index) + 1)
      ensures log == old(log) + [EnsureCapacity(HullBone, id + 1),
        Effect.CreateHullBone(id, bone_data, bind_pose_id, inv_bind_pose_id)]
    {
      log := log + [EnsureCapacity(HullBone, hull_bone_index + 1)];
      log := log + [Effect.CreateHullBone(hull_bone_index, bone_data, bind_pose_id, inv_bind_pose_id)];
      id := hull_bone_index;
      hull_bone_index := hull_bone_index + 1;
    }

    method CreateEntityBone(bone_reference: int, bone_parent_id: int, bone_data: seq<real>) returns (id: int)
      modifies this
      ensures id == old(entity_bone_index)
      ensures Counters() == old(Counters()).With(EntityBone, old(entity_bone_index) + 1)
      ensures log == old(log) + [EnsureCapacity(EntityBone, id + 1),
        Effect.CreateEntityBone(id, bone_data, bone_reference, bone_parent_id)]
    {
      log := log + [EnsureCapacity(EntityBone, entity_bone_index + 1)];
      log := log + [Effect.CreateEntityBone(entity_bone_index, bone_data, bone_reference, bone_parent_id)];
      id := entity_bone_index;
      entity_bone_index := entity_bone_index + 1;
    }

    method NextPoint() returns (r: int)
      ensures r == Counters().Get(Point)
    {
      r := Counters().Get(Point);
    }

    method NextEdge() returns (r: int)
      ensures r == Counters().Get(Edge)
    {
      r := Counters().Get(Edge);
    }

    method NextHull() returns (r: int)
      ensures r == Counters().Get(Hull)
    {
      r := Counters().Get(Hull);
    }

    method NextEntity() returns (r: int)
      ensures r == Counters().Get(Entity)
    {
      r := Counters().Get(Entity);
    }

    method NextHullBone() returns (r: int)
      ensures r == Counters().Get(HullBone)
    {
      r := Counters().Get(HullBone);
    }

    method NextEntityBone() returns (r: int)
      ensures r == Counters().Get(EntityBone)
    {
      r := Counters().Get(EntityBone);
    }
  }
}
