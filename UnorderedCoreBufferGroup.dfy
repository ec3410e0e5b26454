/**
 * The host-side staging arrays of an unordered sector group. `Raw` holds one
 * Java array per core buffer; `ensure_space` makes every array at least as
 * long as a batch of the given per-kind counts needs, and `unload_sectors`
 * copies each kind's buffers out of the GPU when that kind's count is
 * positive. The copies themselves are foreign calls: the model records each
 * as a `Transfer` of the named buffer and element count.
 */
module UnorderedCoreBuffers {

  /** The core buffers a sector unload copies out, named as in CoreBufferType. */
  datatype CoreBuffer =
    | Point | PointBoneTable | PointVertexReference | PointHullIndex | PointHitCount | PointFlag
    | Edge | EdgeFlag | EdgeLength | EdgePin
    | Hull | HullScale | HullPointTable | HullEdgeTable | HullBoneTable | HullRotation | HullFlag
    | HullEntityId | HullFriction | HullRestitution | HullMeshId | HullUvOffset | HullIntegrity
    | Entity | EntityAnimTime | EntityPrevTime | EntityMotionState | EntityAnimLayer | EntityPrevLayer
    | EntityType | EntityFlag | EntityRootHull | EntityModelId | EntityTransformId | EntityHullTable
    | EntityBoneTable | EntityMass
    | HullBone | HullBoneBindPose | HullBoneInvBindPose
    | EntityBone | EntityBoneReferenceId | EntityBoneParentId

  /** Positions in the counts array: entity, hull, point, edge, hull bone, entity bone. */
  const EntityCount := 0
  const HullCount := 1
  const PointCount := 2
  const EdgeCount := 3
  const HullBoneCount := 4
  const EntityBoneCount := 5

  /** Which of the six counts sizes a buffer. */
  function Kind(b: CoreBuffer): (k: nat)
    ensures k < 6
  {
    match b
    case Point => PointCount
    case PointBoneTable => PointCount
    case PointVertexReference => PointCount
    case PointHullIndex => PointCount
    case PointHitCount => PointCount
    case PointFlag => PointCount
    case Edge => EdgeCount
    case EdgeFlag => EdgeCount
    case EdgeLength => EdgeCount
    case EdgePin => EdgeCount
    case Hull => HullCount
    case HullScale => HullCount
    case HullPointTable => HullCount
    case HullEdgeTable => HullCount
    case HullBoneTable => HullCount
    case HullRotation => HullCount
    case HullFlag => HullCount
    case HullEntityId => HullCount
    case HullFriction => HullCount
    case HullRestitution => HullCount
    case HullMeshId => HullCount
    case HullUvOffset => HullCount
    case HullIntegrity => HullCount
    case Entity => EntityCount
    case EntityAnimTime => EntityCount
    case EntityPrevTime => EntityCount
    case EntityMotionState => EntityCount
    case EntityAnimLayer => EntityCount
    case EntityPrevLayer => EntityCount
    case EntityType => EntityCount
    case EntityFlag => EntityCount
    case EntityRootHull => EntityCount
    case EntityModelId => EntityCount
    case EntityTransformId => EntityCount
    case EntityHullTable => EntityCount
    case EntityBoneTable => EntityCount
    case EntityMass => EntityCount
    case HullBone => HullBoneCount
    case HullBoneBindPose => HullBoneCount
    case HullBoneInvBindPose => HullBoneCount
    case EntityBone => EntityBoneCount
    case EntityBoneReferenceId => EntityBoneCount
    case EntityBoneParentId => EntityBoneCount
  }

  /**
   * Elements per object: entity x4 / x2, hull x4 / x2, point x4, edge x2,
   * bone matrices x16, one for every other buffer.
   */
  function Width(b: CoreBuffer): (w: nat)
    ensures w in {1, 2, 4, 16}
  {
    match b
    case Point => 4
    case PointBoneTable => 4
    case PointVertexReference => 1
    case PointHullIndex => 1
    case PointHitCount => 1
    case PointFlag => 1
    case Edge => 2
    case EdgeFlag => 1
    case EdgeLength => 1
    case EdgePin => 1
    case Hull => 4
    case HullScale => 2
    case HullPointTable => 2
    case HullEdgeTable => 2
    case HullBoneTable => 2
    case HullRotation => 2
    case HullFlag => 1
    case HullEntityId => 1
    case HullFriction => 1
    case HullRestitution => 1
    case HullMeshId => 1
    case HullUvOffset => 1
    case HullIntegrity => 1
    case Entity => 4
    case EntityAnimTime => 4
    case EntityPrevTime => 4
    case EntityMotionState => 2
    case EntityAnimLayer => 4
    case EntityPrevLayer => 4
    case EntityType => 1
    case EntityFlag => 1
    case EntityRootHull => 1
    case EntityModelId => 1
    case EntityTransformId => 1
    case EntityHullTable => 2
    case EntityBoneTable => 2
    case EntityMass => 1
    case HullBone => 16
    case HullBoneBindPose => 1
    case HullBoneInvBindPose => 1
    case EntityBone => 16
    case EntityBoneReferenceId => 1
    case EntityBoneParentId => 1
  }

  /**
   * The element count a batch with these counts needs in buffer b: the
   * count of the buffer's kind times its width.
   */
  function Required(b: CoreBuffer, counts: seq<int>): int
    requires |counts| >= 6
  {
    match b
    case Point => counts[2] * 4
    case PointBoneTable => counts[2] * 4
    case PointVertexReference => counts[2]
    case PointHullIndex => counts[2]
    case PointHitCount => counts[2]
    case PointFlag => counts[2]
    case Edge => counts[3] * 2
    case EdgeFlag => counts[3]
    case EdgeLength => counts[3]
    case EdgePin => counts[3]
    case Hull => counts[1] * 4
    case HullScale => counts[1] * 2
    case HullPointTable => counts[1] * 2
    case HullEdgeTable => counts[1] * 2
    case HullBoneTable => counts[1] * 2
    case HullRotation => counts[1] * 2
    case HullFlag => counts[1]
    case HullEntityId => counts[1]
    case HullFriction => counts[1]
    case HullRestitution => counts[1]
    case HullMeshId => counts[1]
    case HullUvOffset => counts[1]
    case HullIntegrity => counts[1]
    case Entity => counts[0] * 4
    case EntityAnimTime => counts[0] * 4
    case EntityPrevTime => counts[0] * 4
    case EntityMotionState => counts[0] * 2
    case EntityAnimLayer => counts[0] * 4
    case EntityPrevLayer => counts[0] * 4
    case EntityType => counts[0]
    case EntityFlag => counts[0]
    case EntityRootHull => counts[0]
    case EntityModelId => counts[0]
    case EntityTransformId => counts[0]
    case EntityHullTable => counts[0] * 2
    case EntityBoneTable => counts[0] * 2
    case EntityMass => counts[0]
    case HullBone => counts[4] * 16
    case HullBoneBindPose => counts[4]
    case HullBoneInvBindPose => counts[4]
    case EntityBone => counts[5] * 16
    case EntityBoneReferenceId => counts[5]
    case EntityBoneParentId => counts[5]
  }

  /** Every requirement is the count of the buffer's kind times the buffer's width. */
  lemma RequiredIsCountTimesWidth(b: CoreBuffer, counts: seq<int>)
    requires |counts| >= 6
    ensures Required(b, counts) == counts[Kind(b)] * Width(b)
  {
  }

  /** The larger of a length and a requirement. */
  function Larger(length: nat, required: int): (n: nat)
    ensures n >= length && n >= required
    ensures n == length || n == required
  {
    if length >= required then length else required
  }

  /**
   * ensure_float, ensure_int and ensure_short: the input when it already
   * holds `required` elements, else a new array of exactly that length
   * filled with the element type's zero.
   */
  function Ensured<T>(input: seq<T>, required: int, zero: T): (r: seq<T>)
    ensures |r| == Larger(|input|, required)
    ensures |input| >= required ==> r == input
    ensures |input| < required ==> |r| == required && forall i :: 0 <= i < |r| ==> r[i] == zero
  {
    if |input| >= required then input else seq(required, _ => zero)
  }

  /** A Java short, as stored in the hit count and motion state arrays. */
  newtype Short = x: int | -0x8000 <= x < 0x8000

  /**
   * The contents of a Raw object: one array per core buffer, held here as
   * values. Every array starts out empty.
   */
  datatype RawArrays = RawArrays(
    point: seq<real>,
    point_bone_table: seq<int>,
    point_vertex_reference: seq<int>,
    point_hull_index: seq<int>,
    point_hit_count: seq<Short>,
    point_flag: seq<int>,
    edge: seq<int>,
    edge_flag: seq<int>,
    edge_length: seq<real>,
    edge_pin: seq<int>,
    hull: seq<real>,
    hull_scale: seq<real>,
    hull_point_table: seq<int>,
    hull_edge_table: seq<int>,
    hull_bone_table: seq<int>,
    hull_rotation: seq<real>,
    hull_flag: seq<int>,
    hull_entity_id: seq<int>,
    hull_friction: seq<real>,
    hull_restitution: seq<real>,
    hull_mesh_id: seq<int>,
    hull_uv_offset: seq<int>,
    hull_integrity: seq<int>,
    entity: seq<real>,
    entity_anim_time: seq<real>,
    entity_prev_time: seq<real>,
    entity_motion_state: seq<Short>,
    entity_anim_layers: seq<int>,
    entity_anim_previous: seq<int>,
    entity_type: seq<int>,
    entity_flag: seq<int>,
    entity_root_hull: seq<int>,
    entity_model_id: seq<int>,
    entity_model_transform: seq<int>,
    entity_hull_table: seq<int>,
    entity_bone_table: seq<int>,
    entity_mass: seq<real>,
    hull_bone: seq<real>,
    hull_bone_bind_pose_id: seq<int>,
    hull_bone_inv_bind_pose_id: seq<int>,
    entity_bone: seq<real>,
    entity_bone_reference_id: seq<int>,
    entity_bone_parent_id: seq<int>)

  const NoArrays: RawArrays := RawArrays(
    [], [], [], [], [], [], [], [], [], [], [], [], [], [], [], [], [], [], [], [], [], [], [], [], [], [], [], [], [], [], [], [], [], [], [], [], [], [], [], [], [], [], [])

  /** The length of the staging array that receives buffer b. */
  function Length(raw: RawArrays, b: CoreBuffer): nat
  {
    match b
    case Point => |raw.point|
    case PointBoneTable => |raw.point_bone_table|
    case PointVertexReference => |raw.point_vertex_reference|
    case PointHullIndex => |raw.point_hull_index|
    case PointHitCount => |raw.point_hit_count|
    case PointFlag => |raw.point_flag|
    case Edge => |raw.edge|
    case EdgeFlag => |raw.edge_flag|
    case EdgeLength => |raw.edge_length|
    case EdgePin => |raw.edge_pin|
    case Hull => |raw.hull|
    case HullScale => |raw.hull_scale|
    case HullPointTable => |raw.hull_point_table|
    case HullEdgeTable => |raw.hull_edge_table|
    case HullBoneTable => |raw.hull_bone_table|
    case HullRotation => |raw.hull_rotation|
    case HullFlag => |raw.hull_flag|
    case HullEntityId => |raw.hull_entity_id|
    case HullFriction => |raw.hull_friction|
    case HullRestitution => |raw.hull_restitution|
    case HullMeshId => |raw.hull_mesh_id|
    case HullUvOffset => |raw.hull_uv_offset|
    case HullIntegrity => |raw.hull_integrity|
    case Entity => |raw.entity|
    case EntityAnimTime => |raw.entity_anim_time|
    case EntityPrevTime => |raw.entity_prev_time|
    case EntityMotionState => |raw.entity_motion_state|
    case EntityAnimLayer => |raw.entity_anim_layers|
    case EntityPrevLayer => |raw.entity_anim_previous|
    case EntityType => |raw.entity_type|
    case EntityFlag => |raw.entity_flag|
    case EntityRootHull => |raw.entity_root_hull|
    case EntityModelId => |raw.entity_model_id|
    case EntityTransformId => |raw.entity_model_transform|
    case EntityHullTable => |raw.entity_hull_table|
    case EntityBoneTable => |raw.entity_bone_table|
    case EntityMass => |raw.entity_mass|
    case HullBone => |raw.hull_bone|
    case HullBoneBindPose => |raw.hull_bone_bind_pose_id|
    case HullBoneInvBindPose => |raw.hull_bone_inv_bind_pose_id|
    case EntityBone => |raw.entity_bone|
    case EntityBoneReferenceId => |raw.entity_bone_reference_id|
    case EntityBoneParentId => |raw.entity_bone_parent_id|
  }

  /** ensure_space: each array replaced by what ensure_* gives for the width the counts call for. */
  function EnsuredSpace(raw: RawArrays, counts: seq<int>): RawArrays
    requires |counts| >= 6
  {
    RawArrays(
      Ensured(raw.point, counts[2] * 4, 0.0),
      Ensured(raw.point_bone_table, counts[2] * 4, 0),
      Ensured(raw.point_vertex_reference, counts[2], 0),
      Ensured(raw.point_hull_index, counts[2], 0),
      Ensured(raw.point_hit_count, counts[2], 0),
      Ensured(raw.point_flag, counts[2], 0),
      Ensured(raw.edge, counts[3] * 2, 0),
      Ensured(raw.edge_flag, counts[3], 0),
      Ensured(raw.edge_length, counts[3], 0.0),
      Ensured(raw.edge_pin, counts[3], 0),
      Ensured(raw.hull, counts[1] * 4, 0.0),
      Ensured(raw.hull_scale, counts[1] * 2, 0.0),
      Ensured(raw.hull_point_table, counts[1] * 2, 0),
      Ensured(raw.hull_edge_table, counts[1] * 2, 0),
      Ensured(raw.hull_bone_table, counts[1] * 2, 0),
      Ensured(raw.hull_rotation, counts[1] * 2, 0.0),
      Ensured(raw.hull_flag, counts[1], 0),
      Ensured(raw.hull_entity_id, counts[1], 0),
      Ensured(raw.hull_friction, counts[1], 0.0),
      Ensured(raw.hull_restitution, counts[1], 0.0),
      Ensured(raw.hull_mesh_id, counts[1], 0),
      Ensured(raw.hull_uv_offset, counts[1], 0),
      Ensured(raw.hull_integrity, counts[1], 0),
      Ensured(raw.entity, counts[0] * 4, 0.0),
      Ensured(raw.entity_anim_time, counts[0] * 4, 0.0),
      Ensured(raw.entity_prev_time, counts[0] * 4, 0.0),
      Ensured(raw.entity_motion_state, counts[0] * 2, 0),
      Ensured(raw.entity_anim_layers, counts[0] * 4, 0),
      Ensured(raw.entity_anim_previous, counts[0] * 4, 0),
      Ensured(raw.entity_type, counts[0], 0),
      Ensured(raw.entity_flag, counts[0], 0),
      Ensured(raw.entity_root_hull, counts[0], 0),
      Ensured(raw.entity_model_id, counts[0], 0),
      Ensured(raw.entity_model_transform, counts[0], 0),
      Ensured(raw.entity_hull_table, counts[0] * 2, 0),
      Ensured(raw.entity_bone_table, counts[0] * 2, 0),
      Ensured(raw.entity_mass, counts[0], 0.0),
      Ensured(raw.hull_bone, counts[4] * 16, 0.0),
      Ensured(raw.hull_bone_bind_pose_id, counts[4], 0),
      Ensured(raw.hull_bone_inv_bind_pose_id, counts[4], 0),
      Ensured(raw.entity_bone, counts[5] * 16, 0.0),
      Ensured(raw.entity_bone_reference_id, counts[5], 0),
      Ensured(raw.entity_bone_parent_id, counts[5], 0))
  }

  /**
   * After ensure_space every array is as long as it was or as the batch
   * needs, whichever is more: it never shrinks, always fits the batch, and
   * keeps its length when it was long enough.
   */
  lemma EnsuredSpaceFits(raw: RawArrays, counts: seq<int>, b: CoreBuffer)
    requires |counts| >= 6
    ensures Length(EnsuredSpace(raw, counts), b) == Larger(Length(raw, b), Required(b, counts))
  {
  }

  /** Raw: the staging arrays a sector unload fills, all empty at first. */
  class Raw {
    var arrays: RawArrays

    constructor ()
      ensures arrays == NoArrays
    {
      arrays := NoArrays;
    }

    /** ensure_space: every staging array is made long enough for a batch of these counts. */
    method EnsureSpace(counts: seq<int>)
      requires |counts| >= 6
      modifies this
      ensures arrays == EnsuredSpace(old(arrays), counts)
    {
      var entity_capacity := counts[0];
      var hull_capacity := counts[1];
      var point_capacity := counts[2];
      var edge_capacity := counts[3];
      var hull_bone_capacity := counts[4];
      var entity_bone_capacity := counts[5];

      var entity_vec2 := entity_capacity * 2;
      var entity_vec4 := entity_capacity * 4;
      var hull_vec2 := hull_capacity * 2;
      var hull_vec4 := hull_capacity * 4;
      var point_vec4 := point_capacity * 4;
      var edge_vec2 := edge_capacity * 2;
      var hull_bone_vec16 := hull_bone_capacity * 16;
      var entity_bone_vec16 := entity_bone_capacity * 16;

      arrays := arrays.(
        entity := Ensured(arrays.entity, entity_vec4, 0.0),
        entity_anim_time := Ensured(arrays.entity_anim_time, entity_vec4, 0.0),
        entity_prev_time := Ensured(arrays.entity_prev_time, entity_vec4, 0.0),
        entity_motion_state := Ensured(arrays.entity_motion_state, entity_vec2, 0),
        entity_anim_layers := Ensured(arrays.entity_anim_layers, entity_vec4, 0),
        entity_anim_previous := Ensured(arrays.entity_anim_previous, entity_vec4, 0),
        entity_flag := Ensured(arrays.entity_flag, entity_capacity, 0),
        entity_type := Ensured(arrays.entity_type, entity_capacity, 0),
        entity_root_hull := Ensured(arrays.entity_root_hull, entity_capacity, 0),
        entity_model_id := Ensured(arrays.entity_model_id, entity_capacity, 0),
        entity_model_transform := Ensured(arrays.entity_model_transform, entity_capacity, 0),
        entity_hull_table := Ensured(arrays.entity_hull_table, entity_vec2, 0),
        entity_bone_table := Ensured(arrays.entity_bone_table, entity_vec2, 0),
        entity_mass := Ensured(arrays.entity_mass, entity_capacity, 0.0),
        hull := Ensured(arrays.hull, hull_vec4, 0.0),
        hull_scale := Ensured(arrays.hull_scale, hull_vec2, 0.0),
        hull_point_table := Ensured(arrays.hull_point_table, hull_vec2, 0),
        hull_edge_table := Ensured(arrays.hull_edge_table, hull_vec2, 0),
        hull_flag := Ensured(arrays.hull_flag, hull_capacity, 0),
        hull_bone_table := Ensured(arrays.hull_bone_table, hull_vec2, 0),
        hull_entity_id := Ensured(arrays.hull_entity_id, hull_capacity, 0),
        hull_friction := Ensured(arrays.hull_friction, hull_capacity, 0.0),
        hull_restitution := Ensured(arrays.hull_restitution, hull_capacity, 0.0),
        hull_mesh_id := Ensured(arrays.hull_mesh_id, hull_capacity, 0),
        hull_uv_offset := Ensured(arrays.hull_uv_offset, hull_capacity, 0),
        hull_rotation := Ensured(arrays.hull_rotation, hull_vec2, 0.0),
        hull_integrity := Ensured(arrays.hull_integrity, hull_capacity, 0),
        point := Ensured(arrays.point, point_vec4, 0.0),
        point_bone_table := Ensured(arrays.point_bone_table, point_vec4, 0),
        point_vertex_reference := Ensured(arrays.point_vertex_reference, point_capacity, 0),
        point_hull_index := Ensured(arrays.point_hull_index, point_capacity, 0),
        point_flag := Ensured(arrays.point_flag, point_capacity, 0),
        point_hit_count := Ensured(arrays.point_hit_count, point_capacity, 0),
        edge := Ensured(arrays.edge, edge_vec2, 0),
        edge_flag := Ensured(arrays.edge_flag, edge_capacity, 0),
        edge_length := Ensured(arrays.edge_length, edge_capacity, 0.0),
        edge_pin := Ensured(arrays.edge_pin, edge_capacity, 0),
        hull_bone := Ensured(arrays.hull_bone, hull_bone_vec16, 0.0),
        hull_bone_bind_pose_id := Ensured(arrays.hull_bone_bind_pose_id, hull_bone_capacity, 0),
        hull_bone_inv_bind_pose_id := Ensured(arrays.hull_bone_inv_bind_pose_id, hull_bone_capacity, 0),
        entity_bone := Ensured(arrays.entity_bone, entity_bone_vec16, 0.0),
        entity_bone_reference_id := Ensured(arrays.entity_bone_reference_id, entity_bone_capacity, 0),
        entity_bone_parent_id := Ensured(arrays.entity_bone_parent_id, entity_bone_capacity, 0));
    }
  }

  /** One GPU-to-host copy: `elements` values of the named buffer. */
  datatype Transfer = Transfer(buffer: CoreBuffer, elements: int)

  /** The copies of the hull bone block for n bones. */
  function HullBoneTransfers(n: int): seq<Transfer>
  {
    [Transfer(HullBone, n * 16), Transfer(HullBoneBindPose, n), Transfer(HullBoneInvBindPose, n)]
  }

  /** The copies of the entity bone block for n bones. */
  function EntityBoneTransfers(n: int): seq<Transfer>
  {
    [Transfer(EntityBone, n * 16), Transfer(EntityBoneReferenceId, n), Transfer(EntityBoneParentId, n)]
  }

  /** The copies of the edge block for n edges. */
  function EdgeTransfers(n: int): seq<Transfer>
  {
    [Transfer(Edge, n * 2), Transfer(EdgeLength, n), Transfer(EdgeFlag, n), Transfer(EdgePin, n)]
  }

  /** The copies of the point block for n points. */
  function PointTransfers(n: int): seq<Transfer>
  {
    [Transfer(Point, n * 4), Transfer(PointVertexReference, n), Transfer(PointHullIndex, n),
     Transfer(PointHitCount, n), Transfer(PointBoneTable, n * 4), Transfer(PointFlag, n)]
  }

  /** The copies of the hull block for n hulls. */
  function HullTransfers(n: int): seq<Transfer>
  {
    [Transfer(Hull, n * 4), Transfer(HullScale, n * 2), Transfer(HullMeshId, n),
     Transfer(HullUvOffset, n), Transfer(HullRotation, n * 2), Transfer(HullIntegrity, n),
     Transfer(HullPointTable, n * 2), Transfer(HullEdgeTable, n * 2), Transfer(HullFlag, n),
     Transfer(HullBoneTable, n * 2), Transfer(HullEntityId, n), Transfer(HullFriction, n),
     Transfer(HullRestitution, n)]
  }

  /** The copies of the entity block for n entities. */
  function EntityTransfers(n: int): seq<Transfer>
  {
    [Transfer(Entity, n * 4), Transfer(EntityType, n), Transfer(EntityFlag, n),
     Transfer(EntityRootHull, n), Transfer(EntityModelId, n), Transfer(EntityTransformId, n),
     Transfer(EntityMass, n), Transfer(EntityAnimLayer, n * 4), Transfer(EntityPrevLayer, n * 4),
     Transfer(EntityAnimTime, n * 4), Transfer(EntityPrevTime, n * 4),
     Transfer(EntityMotionState, n * 2), Transfer(EntityHullTable, n * 2),
     Transfer(EntityBoneTable, n * 2)]
  }

  /** The block of copies for n objects of one kind. */
  function KindTransfers(kind: nat, n: int): seq<Transfer>
    requires kind < 6
  {
    if kind == EntityCount then EntityTransfers(n)
    else if kind == HullCount then HullTransfers(n)
    else if kind == PointCount then PointTransfers(n)
    else if kind == EdgeCount then EdgeTransfers(n)
    else if kind == HullBoneCount then HullBoneTransfers(n)
    else EntityBoneTransfers(n)
  }

  /** A kind's block when its count is positive, else nothing. */
  function IfPositive(kind: nat, counts: seq<int>): seq<Transfer>
    requires kind < 6 <= |counts|
  {
    if counts[kind] > 0 then KindTransfers(kind, counts[kind]) else []
  }

  /** Everything unload_sectors copies, kind by kind in the order of the source. */
  function UnloadTransfers(counts: seq<int>): seq<Transfer>
    requires |counts| >= 6
  {
    IfPositive(HullBoneCount, counts) + IfPositive(EntityBoneCount, counts) + IfPositive(EdgeCount, counts)
    + IfPositive(PointCount, counts) + IfPositive(HullCount, counts) + IfPositive(EntityCount, counts)
  }

  /** Every copy in ts is of a buffer of this kind, as long as ensure_space reserves. */
  predicate MatchesTable(ts: seq<Transfer>, kind: nat, counts: seq<int>)
    requires |counts| >= 6
  {
    forall i :: 0 <= i < |ts| ==> Kind(ts[i].buffer) == kind && ts[i].elements == Required(ts[i].buffer, counts)
  }

  lemma EntityTransfersMatchTable(counts: seq<int>)
    requires |counts| >= 6
    ensures MatchesTable(EntityTransfers(counts[EntityCount]), EntityCount, counts)
  {
  }

  lemma HullTransfersMatchTable(counts: seq<int>)
    requires |counts| >= 6
    ensures MatchesTable(HullTransfers(counts[HullCount]), HullCount, counts)
  {
  }

  lemma PointTransfersMatchTable(counts: seq<int>)
    requires |counts| >= 6
    ensures MatchesTable(PointTransfers(counts[PointCount]), PointCount, counts)
  {
  }

  lemma EdgeTransfersMatchTable(counts: seq<int>)
    requires |counts| >= 6
    ensures MatchesTable(EdgeTransfers(counts[EdgeCount]), EdgeCount, counts)
  {
  }

  lemma HullBoneTransfersMatchTable(counts: seq<int>)
    requires |counts| >= 6
    ensures MatchesTable(HullBoneTransfers(counts[HullBoneCount]), HullBoneCount, counts)
  {
  }

  lemma EntityBoneTransfersMatchTable(counts: seq<int>)
    requires |counts| >= 6
    ensures MatchesTable(EntityBoneTransfers(counts[EntityBoneCount]), EntityBoneCount, counts)
  {
  }

  /** Each block copies buffers of its own kind, each as long as ensure_space reserves. */
  lemma KindTransfersMatchTable(kind: nat, counts: seq<int>)
    requires kind < 6 <= |counts|
    ensures MatchesTable(KindTransfers(kind, counts[kind]), kind, counts)
  {
    if kind == EntityCount {
      EntityTransfersMatchTable(counts);
    } else if kind == HullCount {
      HullTransfersMatchTable(counts);
    } else if kind == PointCount {
      PointTransfersMatchTable(counts);
    } else if kind == EdgeCount {
      EdgeTransfersMatchTable(counts);
    } else if kind == HullBoneCount {
      HullBoneTransfersMatchTable(counts);
    } else {
      EntityBoneTransfersMatchTable(counts);
    }
  }

  /**
   * unload_sectors copies a buffer only when its kind's count is positive,
   * and then exactly the element count ensure_space reserves for it.
   */
  lemma UnloadCopiesReservedLengths(counts: seq<int>, t: Transfer)
    requires |counts| >= 6
    requires t in UnloadTransfers(counts)
    ensures counts[Kind(t.buffer)] > 0
    ensures t.elements == Required(t.buffer, counts)
  {
    var k :| k < 6 && t in IfPositive(k, counts);
    KindTransfersMatchTable(k, counts);
    var i :| 0 <= i < |IfPositive(k, counts)| && IfPositive(k, counts)[i] == t;
  }

  /** Every hull bone buffer is in the hull bone block. */
  lemma HullBoneBlockCopies(counts: seq<int>, b: CoreBuffer)
    requires |counts| >= 6
    requires Kind(b) == HullBoneCount
    ensures Transfer(b, Required(b, counts)) in HullBoneTransfers(counts[HullBoneCount])
  {
    var block := HullBoneTransfers(counts[HullBoneCount]);
    if b == HullBone {
      assert block[0] == Transfer(b, Required(b, counts));
    } else if b == HullBoneBindPose {
      assert block[1] == Transfer(b, Required(b, counts));
    } else if b == HullBoneInvBindPose {
      assert block[2] == Transfer(b, Required(b, counts));
    } else {
      assert false;
    }
  }

  /** Every entity bone buffer is in the entity bone block. */
  lemma EntityBoneBlockCopies(counts: seq<int>, b: CoreBuffer)
    requires |counts| >= 6
    requires Kind(b) == EntityBoneCount
    ensures Transfer(b, Required(b, counts)) in EntityBoneTransfers(counts[EntityBoneCount])
  {
    var block := EntityBoneTransfers(counts[EntityBoneCount]);
    if b == EntityBone {
      assert block[0] == Transfer(b, Required(b, counts));
    } else if b == EntityBoneReferenceId {
      assert block[1] == Transfer(b, Required(b, counts));
    } else if b == EntityBoneParentId {
      assert block[2] == Transfer(b, Required(b, counts));
    } else {
      assert false;
    }
  }

  /** Every edge buffer is in the edge block. */
  lemma EdgeBlockCopies(counts: seq<int>, b: CoreBuffer)
    requires |counts| >= 6
    requires Kind(b) == EdgeCount
    ensures Transfer(b, Required(b, counts)) in EdgeTransfers(counts[EdgeCount])
  {
    var block := EdgeTransfers(counts[EdgeCount]);
    if b == Edge {
      assert block[0] == Transfer(b, Required(b, counts));
    } else if b == EdgeLength {
      assert block[1] == Transfer(b, Required(b, counts));
    } else if b == EdgeFlag {
      assert block[2] == Transfer(b, Required(b, counts));
    } else if b == EdgePin {
      assert block[3] == Transfer(b, Required(b, counts));
    } else {
      assert false;
    }
  }

  /** Every point buffer is in the point block. */
  lemma PointBlockCopies(counts: seq<int>, b: CoreBuffer)
    requires |counts| >= 6
    requires Kind(b) == PointCount
    ensures Transfer(b, Required(b, counts)) in PointTransfers(counts[PointCount])
  {
    var block := PointTransfers(counts[PointCount]);
    if b == Point {
      assert block[0] == Transfer(b, Required(b, counts));
    } else if b == PointVertexReference {
      assert block[1] == Transfer(b, Required(b, counts));
    } else if b == PointHullIndex {
      assert block[2] == Transfer(b, Required(b, counts));
    } else if b == PointHitCount {
      assert block[3] == Transfer(b, Required(b, counts));
    } else if b == PointBoneTable {
      assert block[4] == Transfer(b, Required(b, counts));
    } else if b == PointFlag {
      assert block[5] == Transfer(b, Required(b, counts));
    } else {
      assert false;
    }
  }

  /** Every hull buffer is in the hull block. */
  lemma HullBlockCopies(counts: seq<int>, b: CoreBuffer)
    requires |counts| >= 6
    requires Kind(b) == HullCount
    ensures Transfer(b, Required(b, counts)) in HullTransfers(counts[HullCount])
  {
    var block := HullTransfers(counts[HullCount]);
    if b == Hull {
      assert block[0] == Transfer(b, Required(b, counts));
    } else if b == HullScale {
      assert block[1] == Transfer(b, Required(b, counts));
    } else if b == HullMeshId {
      assert block[2] == Transfer(b, Required(b, counts));
    } else if b == HullUvOffset {
      assert block[3] == Transfer(b, Required(b, counts));
    } else if b == HullRotation {
      assert block[4] == Transfer(b, Required(b, counts));
    } else if b == HullIntegrity {
      assert block[5] == Transfer(b, Required(b, counts));
    } else if b == HullPointTable {
      assert block[6] == Transfer(b, Required(b, counts));
    } else if b == HullEdgeTable {
      assert block[7] == Transfer(b, Required(b, counts));
    } else if b == HullFlag {
      assert block[8] == Transfer(b, Required(b, counts));
    } else if b == HullBoneTable {
      assert block[9] == Transfer(b, Required(b, counts));
    } else if b == HullEntityId {
      assert block[10] == Transfer(b, Required(b, counts));
    } else if b == HullFriction {
      assert block[11] == Transfer(b, Required(b, counts));
    } else if b == HullRestitution {
      assert block[12] == Transfer(b, Required(b, counts));
    } else {
      assert false;
    }
  }

  /** Every entity buffer is in the entity block. */
  lemma EntityBlockCopies(counts: seq<int>, b: CoreBuffer)
    requires |counts| >= 6
    requires Kind(b) == EntityCount
    ensures Transfer(b, Required(b, counts)) in EntityTransfers(counts[EntityCount])
  {
    var block := EntityTransfers(counts[EntityCount]);
    if b == Entity {
      assert block[0] == Transfer(b, Required(b, counts));
    } else if b == EntityType {
      assert block[1] == Transfer(b, Required(b, counts));
    } else if b == EntityFlag {
      assert block[2] == Transfer(b, Required(b, counts));
    } else if b == EntityRootHull {
      assert block[3] == Transfer(b, Required(b, counts));
    } else if b == EntityModelId {
      assert block[4] == Transfer(b, Required(b, counts));
    } else if b == EntityTransformId {
      assert block[5] == Transfer(b, Required(b, counts));
    } else if b == EntityMass {
      assert block[6] == Transfer(b, Required(b, counts));
    } else if b == EntityAnimLayer {
      assert block[7] == Transfer(b, Required(b, counts));
    } else if b == EntityPrevLayer {
      assert block[8] == Transfer(b, Required(b, counts));
    } else if b == EntityAnimTime {
      assert block[9] == Transfer(b, Required(b, counts));
    } else if b == EntityPrevTime {
      assert block[10] == Transfer(b, Required(b, counts));
    } else if b == EntityMotionState {
      assert block[11] == Transfer(b, Required(b, counts));
    } else if b == EntityHullTable {
      assert block[12] == Transfer(b, Required(b, counts));
    } else if b == EntityBoneTable {
      assert block[13] == Transfer(b, Required(b, counts));
    } else {
      assert false;
    }
  }

  /** Conversely, every buffer of a kind with a positive count is copied. */
  lemma UnloadCopiesEveryBuffer(counts: seq<int>, b: CoreBuffer)
    requires |counts| >= 6
    requires counts[Kind(b)] > 0
    ensures Transfer(b, Required(b, counts)) in UnloadTransfers(counts)
  {
    var k := Kind(b);
    if k == EntityCount {
      EntityBlockCopies(counts, b);
    } else if k == HullCount {
      HullBlockCopies(counts, b);
    } else if k == PointCount {
      PointBlockCopies(counts, b);
    } else if k == EdgeCount {
      EdgeBlockCopies(counts, b);
    } else if k == HullBoneCount {
      HullBoneBlockCopies(counts, b);
    } else {
      EntityBoneBlockCopies(counts, b);
    }
  }



  /** After ensure_space with the same counts, every copy fits its staging array. */
  lemma UnloadFitsEnsuredSpace(raw: RawArrays, counts: seq<int>, t: Transfer)
    requires |counts| >= 6
    requires t in UnloadTransfers(counts)
    ensures 0 < t.elements <= Length(EnsuredSpace(raw, counts), t.buffer)
  {
    UnloadCopiesReservedLengths(counts, t);
    RequiredIsCountTimesWidth(t.buffer, counts);
    EnsuredSpaceFits(raw, counts, t.buffer);
  }

  /** Appending six blocks one after another appends their concatenation. */
  lemma AppendSix<T>(s: seq<T>, a: seq<T>, b: seq<T>, c: seq<T>, d: seq<T>, e: seq<T>, f: seq<T>)
    ensures s + a + b + c + d + e + f == s + (a + b + c + d + e + f)
  {
  }

  /** UnorderedCoreBufferGroup: its GPU buffers are outside the model; the copies it makes are recorded. */
  class UnorderedCoreBufferGroup {
    var transfers: seq<Transfer>

    constructor ()
      ensures transfers == []
    {
      transfers := [];
    }

    /** The hull bone block of unload_sectors. */
    method UnloadHullBones(counts: seq<int>)
      requires |counts| >= 6
      modifies this
      ensures transfers == old(transfers) + IfPositive(HullBoneCount, counts)
    {
      var hull_bone_capacity := counts[4];
      if hull_bone_capacity > 0 {
        var hull_bone_vec16 := hull_bone_capacity * 16;
        transfers := transfers + [
          Transfer(HullBone, hull_bone_vec16),
          Transfer(HullBoneBindPose, hull_bone_capacity),
          Transfer(HullBoneInvBindPose, hull_bone_capacity)];
      }
    }

    /** The entity bone block of unload_sectors. */
    method UnloadEntityBones(counts: seq<int>)
      requires |counts| >= 6
      modifies this
      ensures transfers == old(transfers) + IfPositive(EntityBoneCount, counts)
    {
      var entity_bone_capacity := counts[5];
      if entity_bone_capacity > 0 {
        var entity_bone_vec16 := entity_bone_capacity * 16;
        transfers := transfers + [
          Transfer(EntityBone, entity_bone_vec16),
          Transfer(EntityBoneReferenceId, entity_bone_capacity),
          Transfer(EntityBoneParentId, entity_bone_capacity)];
      }
    }

    /** The edge block of unload_sectors. */
    method UnloadEdges(counts: seq<int>)
      requires |counts| >= 6
      modifies this
      ensures transfers == old(transfers) + IfPositive(EdgeCount, counts)
    {
      var edge_capacity := counts[3];
      if edge_capacity > 0 {
        var edge_vec2 := edge_capacity * 2;
        transfers := transfers + [
          Transfer(Edge, edge_vec2),
          Transfer(EdgeLength, edge_capacity),
          Transfer(EdgeFlag, edge_capacity),
          Transfer(EdgePin, edge_capacity)];
      }
    }

    /** The point block of unload_sectors. */
    method UnloadPoints(counts: seq<int>)
      requires |counts| >= 6
      modifies this
      ensures transfers == old(transfers) + IfPositive(PointCount, counts)
    {
      var point_capacity := counts[2];
      if point_capacity > 0 {
        var point_vec4 := point_capacity * 4;
        transfers := transfers + [
          Transfer(Point, point_vec4),
          Transfer(PointVertexReference, point_capacity),
          Transfer(PointHullIndex, point_capacity),
          Transfer(PointHitCount, point_capacity),
          Transfer(PointBoneTable, point_vec4),
          Transfer(PointFlag, point_capacity)];
      }
    }

    /** The hull block of unload_sectors. */
    method UnloadHulls(counts: seq<int>)
      requires |counts| >= 6
      modifies this
      ensures transfers == old(transfers) + IfPositive(HullCount, counts)
    {
      var hull_capacity := counts[1];
      if hull_capacity > 0 {
        var hull_vec2 := hull_capacity * 2;
        var hull_vec4 := hull_capacity * 4;
        transfers := transfers + [
          Transfer(Hull, hull_vec4),
          Transfer(HullScale, hull_vec2),
          Transfer(HullMeshId, hull_capacity),
          Transfer(HullUvOffset, hull_capacity),
          Transfer(HullRotation, hull_vec2),
          Transfer(HullIntegrity, hull_capacity),
          Transfer(HullPointTable, hull_vec2),
          Transfer(HullEdgeTable, hull_vec2),
          Transfer(HullFlag, hull_capacity),
          Transfer(HullBoneTable, hull_vec2),
          Transfer(HullEntityId, hull_capacity),
          Transfer(HullFriction, hull_capacity),
          Transfer(HullRestitution, hull_capacity)];
      }
    }

    /** The entity block of unload_sectors. */
    method UnloadEntities(counts: seq<int>)
      requires |counts| >= 6
      modifies this
      ensures transfers == old(transfers) + IfPositive(EntityCount, counts)
    {
      var entity_capacity := counts[0];
      if entity_capacity > 0 {
        var entity_vec2 := entity_capacity * 2;
        var entity_vec4 := entity_capacity * 4;
        transfers := transfers + [
          Transfer(Entity, entity_vec4),
          Transfer(EntityType, entity_capacity),
          Transfer(EntityFlag, entity_capacity),
          Transfer(EntityRootHull, entity_capacity),
          Transfer(EntityModelId, entity_capacity),
          Transfer(EntityTransformId, entity_capacity),
          Transfer(EntityMass, entity_capacity),
          Transfer(EntityAnimLayer, entity_vec4),
          Transfer(EntityPrevLayer, entity_vec4),
          Transfer(EntityAnimTime, entity_vec4),
          Transfer(EntityPrevTime, entity_vec4),
          Transfer(EntityMotionState, entity_vec2),
          Transfer(EntityHullTable, entity_vec2),
          Transfer(EntityBoneTable, entity_vec2)];
      }
    }

    /**
     * unload_sectors: each kind's buffers are copied into the matching Raw
     * arrays, and only when that kind's count is positive.
     */
    method UnloadSectors(raw: Raw, counts: seq<int>)
      requires |counts| >= 6
      modifies this
      ensures transfers == old(transfers) + UnloadTransfers(counts)
    {
      ghost var before := transfers;
      ghost var a, b, c := IfPositive(HullBoneCount, counts), IfPositive(EntityBoneCount, counts), IfPositive(EdgeCount, counts);
      ghost var d, e, f := IfPositive(PointCount, counts), IfPositive(HullCount, counts), IfPositive(EntityCount, counts);
      UnloadHullBones(counts);
      UnloadEntityBones(counts);
      UnloadEdges(counts);
      UnloadPoints(counts);
      UnloadHulls(counts);
      UnloadEntities(counts);
      assert transfers == before + a + b + c + d + e + f;
      AppendSix(before, a, b, c, d, e, f);
    }
  }
}
