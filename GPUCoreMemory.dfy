/**
 * The core GPU memory of the engine's first generation: sixteen bump-allocated
 * object pools, each with a "next free slot" counter that new_* hands out and
 * post-increments, together with the delete-and-compact pass that drops
 * deleted armatures and slides every live object down. Create kernels, buffer
 * work and compaction launches are recorded in `log`; the delete scan's
 * result is supplied by the caller.
 */
module GPUCoreMemory {
  import SlotCounters
  import opened Compaction

  datatype Pool =
    | Hull | Point | Edge | VertexRef | BoneBind | BoneRef | Bone | ModelTransform
    | ArmatureBone | Armature | Mesh | Face | Uv | Keyframe | BoneChannel | Animation

  /** The six pools that delete-and-compact shrinks. */
  const CompactedPools: set<Pool> := {Edge, Bone, Point, Hull, Armature, ArmatureBone}

  datatype Buffer = HullShift | EdgeShift | PointShift | BoneShift | BoneBindShift

  datatype CompactKernel =
    | CompactArmatures | CompactBones | CompactPoints | CompactEdges | CompactHulls | CompactArmatureBones

  /** One GPU-side effect, in issue order. */
  datatype Effect =
    | CreateAnimationTimings(target: int, timings: seq<real>)
    | CreateBoneChannel(target: int, animTimingIndex: int, posTable: seq<int>, rotTable: seq<int>, sclTable: seq<int>)
    | CreateKeyframe(target: int, frame: seq<real>, time: real)
    | CreateTextureUv(target: int, uv: seq<real>)
    | CreateEdge(target: int, edge: seq<real>)
    | CreatePoint(target: int, point: seq<real>, vertexTable: seq<int>, boneTable: seq<int>)
    | CreateHull(target: int, hull: seq<real>, rotation: seq<real>, table: seq<int>, flags: seq<int>, meshId: int)
    | CreateMeshReference(target: int, table: seq<int>)
    | CreateMeshFace(target: int, face: seq<int>)
    | CreateArmature(target: int, armature: seq<real>, flags: seq<int>, hullTable: seq<int>,
                     mass: real, animIndex: int, animTime: real)
    | CreateVertexReference(target: int, vertex: seq<real>, weights: seq<real>, uvTable: seq<int>)
    | CreateBoneBindPose(target: int, data: seq<real>, parent: int)
    | CreateBoneReference(target: int, data: seq<real>)
    | CreateBone(target: int, data: seq<real>, table: seq<int>)
    | CreateArmatureBone(target: int, data: seq<real>, table: seq<int>)
    | CreateModelTransform(target: int, data: seq<real>)
    | SetBoneChannelTable(target: int, table: seq<int>)
    | UpdateAccel(target: int, accel: seq<real>)
    | LocateOutOfBounds(armatures: int)
    | ScanDeletes(n: int, path: ScanPath)
    | ReleaseDeleteBuffers
    | EnsureCapacity(buffer: Buffer, capacity: int)
    | Clear(buffer: Buffer)
    | Call(kernel: CompactKernel, launch: Launch)

  /** One compaction kernel run over a launch plan. */
  function Calls(kernel: CompactKernel, plan: seq<Launch>): seq<Effect>
  {
    seq(|plan|, i requires 0 <= i < |plan| => Call(kernel, plan[i]))
  }

  /** The shift buffers sized to the live hulls and edges, then all five cleared. */
  function ShiftBufferSetup(hulls: int, edges: int): seq<Effect>
  {
    [EnsureCapacity(HullShift, hulls), EnsureCapacity(EdgeShift, edges),
     Clear(HullShift), Clear(EdgeShift), Clear(PointShift), Clear(BoneShift), Clear(BoneBindShift)]
  }

  /** The counters delete-and-compact shrinks, as the shared six-kind view (armatures are entities, bones hull bones, armature bones entity bones). */
  function SixOf(points: int, edges: int, hulls: int, armatures: int, bones: int, armatureBones: int): SlotCounters.Counters
  {
    SlotCounters.Counters(points, edges, hulls, armatures, bones, armatureBones)
  }

  /** The compaction kernels in the order they run, each over its pool's live count. */
  function KernelRuns(c: SlotCounters.Counters, group: nat): seq<Effect>
    requires group > 0
  {
    Calls(CompactArmatures, Plan(c.entity, group, 0))
    + Calls(CompactBones, Plan(c.hullBone, group, 0))
    + Calls(CompactPoints, Plan(c.point, group, 0))
    + (Calls(CompactEdges, Plan(c.edge, group, 0))
    + Calls(CompactHulls, Plan(c.hull, group, 0))
    + Calls(CompactArmatureBones, Plan(c.entityBone, group, 0)))
  }

  /** A run of effects made only of kernel launches. */
  ghost predicate OnlyCalls(s: seq<Effect>)
  {
    forall i :: 0 <= i < |s| ==> s[i].Call?
  }

  lemma OnlyCallsAppend(a: seq<Effect>, b: seq<Effect>)
    requires OnlyCalls(a) && OnlyCalls(b)
    ensures OnlyCalls(a + b)
  {
  }

  lemma AppendAssoc(a: seq<Effect>, b: seq<Effect>, c: seq<Effect>)
    ensures a + b + c == a + (b + c)
  {
  }

  /** The log compact_buffers leaves: the shift buffer set-up, then the kernels in order. */
  lemma CompactAllLog(before: seq<Effect>, c: SlotCounters.Counters, g: nat, prefix: seq<Effect>, after: seq<Effect>)
    requires g > 0
    requires prefix == before + [EnsureCapacity(HullShift, c.hull), EnsureCapacity(EdgeShift, c.edge)]
      + [Clear(HullShift), Clear(EdgeShift)] + [Clear(PointShift), Clear(BoneShift), Clear(BoneBindShift)]
    requires after == prefix + Calls(CompactArmatures, Plan(c.entity, g, 0))
      + Calls(CompactBones, Plan(c.hullBone, g, 0)) + Calls(CompactPoints, Plan(c.point, g, 0))
      + Calls(CompactEdges, Plan(c.edge, g, 0)) + Calls(CompactHulls, Plan(c.hull, g, 0))
      + Calls(CompactArmatureBones, Plan(c.entityBone, g, 0))
    ensures after == before + ShiftBufferSetup(c.hull, c.edge) + KernelRuns(c, g)
  {
    var a, b, d := Calls(CompactArmatures, Plan(c.entity, g, 0)),
      Calls(CompactBones, Plan(c.hullBone, g, 0)), Calls(CompactPoints, Plan(c.point, g, 0));
    var e, f, h := Calls(CompactEdges, Plan(c.edge, g, 0)),
      Calls(CompactHulls, Plan(c.hull, g, 0)), Calls(CompactArmatureBones, Plan(c.entityBone, g, 0));
    assert prefix == before + ShiftBufferSetup(c.hull, c.edge);
    Group(prefix, a, b, d, e, f, h);
  }

  lemma Group<T>(p: seq<T>, a: seq<T>, b: seq<T>, c: seq<T>, d: seq<T>, e: seq<T>, f: seq<T>)
    ensures p + a + b + c + d + e + f == p + (a + b + c + (d + e + f))
  {
  }

  lemma {:induction false} KernelRunsOnlyCall(c: SlotCounters.Counters, group: nat)
    requires group > 0
    ensures OnlyCalls(KernelRuns(c, group))
  {
    var a := Calls(CompactArmatures, Plan(c.entity, group, 0));
    var b := Calls(CompactBones, Plan(c.hullBone, group, 0));
    var p := Calls(CompactPoints, Plan(c.point, group, 0));
    var e := Calls(CompactEdges, Plan(c.edge, group, 0));
    var h := Calls(CompactHulls, Plan(c.hull, group, 0));
    var ab := Calls(CompactArmatureBones, Plan(c.entityBone, group, 0));
    OnlyCallsAppend(a, b);
    OnlyCallsAppend(a + b, p);
    OnlyCallsAppend(e, h);
    OnlyCallsAppend(e + h, ab);
    OnlyCallsAppend(a + b + p, e + h + ab);
  }

  /** All five shift buffers are cleared, and every clear comes before the first compaction launch. */
  lemma {:induction false} ClearsBeforeKernels(c: SlotCounters.Counters, group: nat)
    requires group > 0
    ensures forall b: Buffer :: Clear(b) in ShiftBufferSetup(c.hull, c.edge)
    ensures var e := ShiftBufferSetup(c.hull, c.edge) + KernelRuns(c, group);
      forall i, j :: (0 <= i < |e| && 0 <= j < |e| && e[i].Clear? && e[j].Call?) ==> i < j
  {
    var prefix := ShiftBufferSetup(c.hull, c.edge);
    KernelRunsOnlyCall(c, group);
    forall b: Buffer ensures Clear(b) in prefix {
      var k := match b case HullShift => 2 case EdgeShift => 3 case PointShift => 4 case BoneShift => 5 case BoneBindShift => 6;
      assert prefix[k] == Clear(b);
    }
  }

  class GPUCoreMemory {
    var hull_index: int
    var point_index: int
    var edge_index: int
    var vertex_ref_index: int
    var bone_bind_index: int
    var bone_ref_index: int
    var bone_index: int
    var model_transform_index: int
    var armature_bone_index: int
    var armature_index: int
    var mesh_index: int
    var face_index: int
    var uv_index: int
    var keyframe_index: int
    var bone_channel_index: int
    var animation_index: int
    const max_work_group_size: nat
    const max_scan_block_size: nat
    /** The GPU effects issued so far. */
    var log: seq<Effect>

    /** The counter of pool p. */
    function Index(p: Pool): int
      reads this
    {
      match p
      case Hull => hull_index
      case Point => point_index
      case Edge => edge_index
      case VertexRef => vertex_ref_index
      case BoneBind => bone_bind_index
      case BoneRef => bone_ref_index
      case Bone => bone_index
      case ModelTransform => model_transform_index
      case ArmatureBone => armature_bone_index
      case Armature => armature_index
      case Mesh => mesh_index
      case Face => face_index
      case Uv => uv_index
      case Keyframe => keyframe_index
      case BoneChannel => bone_channel_index
      case Animation => animation_index
    }

    /** The six compacted counters, in the shared six-kind view. */
    function Six(): SlotCounters.Counters
      reads this
    {
      SixOf(point_index, edge_index, hull_index, armature_index, bone_index, armature_bone_index)
    }

    ghost predicate Valid()
      reads this
    {
      max_work_group_size > 0 && max_scan_block_size > 0
    }

    constructor (max_work_group_size: nat, max_scan_block_size: nat)
      requires max_work_group_size > 0 && max_scan_block_size > 0
      ensures Valid() && log == []
      ensures forall p :: Index(p) == 0
      ensures this.max_work_group_size == max_work_group_size && this.max_scan_block_size == max_scan_block_size
    {
      hull_index, point_index, edge_index, vertex_ref_index := 0, 0, 0, 0;
      bone_bind_index, bone_ref_index, bone_index, model_transform_index := 0, 0, 0, 0;
      armature_bone_index, armature_index, mesh_index, face_index := 0, 0, 0, 0;
      uv_index, keyframe_index, bone_channel_index, animation_index := 0, 0, 0, 0;
      this.max_work_group_size := max_work_group_size;
      this.max_scan_block_size := max_scan_block_size;
      log := [];
    }

    /** new_animation_timings; hands out the Animation pool's next slot. */
    method NewAnimationTimings(timings: seq<real>) returns (id: int)
      modifies this`animation_index, this`log
      ensures id == old(Index(Animation))
      ensures forall q :: Index(q) == if q == Animation then old(Index(q)) + 1 else old(Index(q))
      ensures log == old(log) + [CreateAnimationTimings(id, timings)]
    {
      id := animation_index;
      log := log + [CreateAnimationTimings(id, timings)];
      animation_index := animation_index + 1;
    }

    /** new_bone_channel; hands out the BoneChannel pool's next slot. */
    method NewBoneChannel(anim_timing_index: int, pos_table: seq<int>, rot_table: seq<int>, scl_table: seq<int>) returns (id: int)
      modifies this`bone_channel_index, this`log
      ensures id == old(Index(BoneChannel))
      ensures forall q :: Index(q) == if q == BoneChannel then old(Index(q)) + 1 else old(Index(q))
      ensures log == old(log) + [CreateBoneChannel(id, anim_timing_index, pos_table, rot_table, scl_table)]
    {
      id := bone_channel_index;
      log := log + [CreateBoneChannel(id, anim_timing_index, pos_table, rot_table, scl_table)];
      bone_channel_index := bone_channel_index + 1;
    }

    /** new_keyframe; hands out the Keyframe pool's next slot. */
    method NewKeyframe(frame: seq<real>, time: real) returns (id: int)
      modifies this`keyframe_index, this`log
      ensures id == old(Index(Keyframe))
      ensures forall q :: Index(q) == if q == Keyframe then old(Index(q)) + 1 else old(Index(q))
      ensures log == old(log) + [CreateKeyframe(id, frame, time)]
    {
      id := keyframe_index;
      log := log + [CreateKeyframe(id, frame, time)];
      keyframe_index := keyframe_index + 1;
    }

    /** new_texture_uv; hands out the Uv pool's next slot. */
    method NewTextureUv(u: real, v: real) returns (id: int)
      modifies this`uv_index, this`log
      ensures id == old(Index(Uv))
      ensures forall q :: Index(q) == if q == Uv then old(Index(q)) + 1 else old(Index(q))
      ensures log == old(log) + [CreateTextureUv(id, [u, v])]
    {
      id := uv_index;
      log := log + [CreateTextureUv(id, [u, v])];
      uv_index := uv_index + 1;
    }

    /** new_edge: the edge is packed as (p1, p2, length, flags); hands out the Edge pool's next slot. */
    method NewEdge(p1: int, p2: int, l: real, flags: int) returns (id: int)
      modifies this`edge_index, this`log
      ensures id == old(Index(Edge))
      ensures forall q :: Index(q) == if q == Edge then old(Index(q)) + 1 else old(Index(q))
      ensures log == old(log) + [CreateEdge(id, [p1 as real, p2 as real, l, flags as real])]
    {
      id := edge_index;
      log := log + [CreateEdge(id, [p1 as real, p2 as real, l, flags as real])];
      edge_index := edge_index + 1;
    }

    /** new_point: the point starts at rest, its previous position equal to its current one; hands out the Point pool's next slot. */
    method NewPoint(position: seq<real>, vertex_table: seq<int>, bone_ids: seq<int>) returns (id: int)
      requires |position| >= 2
      modifies this`point_index, this`log
      ensures id == old(Index(Point))
      ensures forall q :: Index(q) == if q == Point then old(Index(q)) + 1 else old(Index(q))
      ensures log == old(log) + [CreatePoint(id, [position[0], position[1], position[0], position[1]], vertex_table, bone_ids)]
    {
      id := point_index;
      log := log + [CreatePoint(id, [position[0], position[1], position[0], position[1]], vertex_table, bone_ids)];
      point_index := point_index + 1;
    }

    /** new_hull; hands out the Hull pool's next slot. */
    method NewHull(mesh_id: int, transform: seq<real>, rotation: seq<real>, table: seq<int>, flags: seq<int>) returns (id: int)
      modifies this`hull_index, this`log
      ensures id == old(Index(Hull))
      ensures forall q :: Index(q) == if q == Hull then old(Index(q)) + 1 else old(Index(q))
      ensures log == old(log) + [CreateHull(id, transform, rotation, table, flags, mesh_id)]
    {
      id := hull_index;
      log := log + [CreateHull(id, transform, rotation, table, flags, mesh_id)];
      hull_index := hull_index + 1;
    }

    /** new_mesh_reference; hands out the Mesh pool's next slot. */
    method NewMeshReference(mesh_ref_table: seq<int>) returns (id: int)
      modifies this`mesh_index, this`log
      ensures id == old(Index(Mesh))
      ensures forall q :: Index(q) == if q == Mesh then old(Index(q)) + 1 else old(Index(q))
      ensures log == old(log) + [CreateMeshReference(id, mesh_ref_table)]
    {
      id := mesh_index;
      log := log + [CreateMeshReference(id, mesh_ref_table)];
      mesh_index := mesh_index + 1;
    }

    /** new_mesh_face; hands out the Face pool's next slot. */
    method NewMeshFace(face: seq<int>) returns (id: int)
      modifies this`face_index, this`log
      ensures id == old(Index(Face))
      ensures forall q :: Index(q) == if q == Face then old(Index(q)) + 1 else old(Index(q))
      ensures log == old(log) + [CreateMeshFace(id, face)]
    {
      id := face_index;
      log := log + [CreateMeshFace(id, face)];
      face_index := face_index + 1;
    }

    /** new_armature: the armature starts at rest at (x, y); hands out the Armature pool's next slot. */
    method NewArmature(x: real, y: real, table: seq<int>, flags: seq<int>, mass: real, anim_index: int, anim_time: real) returns (id: int)
      modifies this`armature_index, this`log
      ensures id == old(Index(Armature))
      ensures forall q :: Index(q) == if q == Armature then old(Index(q)) + 1 else old(Index(q))
      ensures log == old(log) + [CreateArmature(id, [x, y, x, y], flags, table, mass, anim_index, anim_time)]
    {
      id := armature_index;
      log := log + [CreateArmature(id, [x, y, x, y], flags, table, mass, anim_index, anim_time)];
      armature_index := armature_index + 1;
    }

    /** new_vertex_reference; hands out the VertexRef pool's next slot. */
    method NewVertexReference(x: real, y: real, weights: seq<real>, uv_table: seq<int>) returns (id: int)
      modifies this`vertex_ref_index, this`log
      ensures id == old(Index(VertexRef))
      ensures forall q :: Index(q) == if q == VertexRef then old(Index(q)) + 1 else old(Index(q))
      ensures log == old(log) + [CreateVertexReference(id, [x, y], weights, uv_table)]
    {
      id := vertex_ref_index;
      log := log + [CreateVertexReference(id, [x, y], weights, uv_table)];
      vertex_ref_index := vertex_ref_index + 1;
    }

    /** new_bone_bind_pose; hands out the BoneBind pool's next slot. */
    method NewBoneBindPose(bind_parent: int, bone_data: seq<real>) returns (id: int)
      modifies this`bone_bind_index, this`log
      ensures id == old(Index(BoneBind))
      ensures forall q :: Index(q) == if q == BoneBind then old(Index(q)) + 1 else old(Index(q))
      ensures log == old(log) + [CreateBoneBindPose(id, bone_data, bind_parent)]
    {
      id := bone_bind_index;
      log := log + [CreateBoneBindPose(id, bone_data, bind_parent)];
      bone_bind_index := bone_bind_index + 1;
    }

    /** new_bone_reference; hands out the BoneRef pool's next slot. */
    method NewBoneReference(bone_data: seq<real>) returns (id: int)
      modifies this`bone_ref_index, this`log
      ensures id == old(Index(BoneRef))
      ensures forall q :: Index(q) == if q == BoneRef then old(Index(q)) + 1 else old(Index(q))
      ensures log == old(log) + [CreateBoneReference(id, bone_data)]
    {
      id := bone_ref_index;
      log := log + [CreateBoneReference(id, bone_data)];
      bone_ref_index := bone_ref_index + 1;
    }

    /** new_bone; hands out the Bone pool's next slot. */
    method NewBone(bone_table: seq<int>, bone_data: seq<real>) returns (id: int)
      modifies this`bone_index, this`log
      ensures id == old(Index(Bone))
      ensures forall q :: Index(q) == if q == Bone then old(Index(q)) + 1 else old(Index(q))
      ensures log == old(log) + [CreateBone(id, bone_data, bone_table)]
    {
      id := bone_index;
      log := log + [CreateBone(id, bone_data, bone_table)];
      bone_index := bone_index + 1;
    }

    /** new_armature_bone; hands out the ArmatureBone pool's next slot. */
    method NewArmatureBone(bone_bind_table: seq<int>, bone_data: seq<real>) returns (id: int)
      modifies this`armature_bone_index, this`log
      ensures id == old(Index(ArmatureBone))
      ensures forall q :: Index(q) == if q == ArmatureBone then old(Index(q)) + 1 else old(Index(q))
      ensures log == old(log) + [CreateArmatureBone(id, bone_data, bone_bind_table)]
    {
      id := armature_bone_index;
      log := log + [CreateArmatureBone(id, bone_data, bone_bind_table)];
      armature_bone_index := armature_bone_index + 1;
    }

    /** new_model_transform; hands out the ModelTransform pool's next slot. */
    method NewModelTransform(transform_data: seq<real>) returns (id: int)
      modifies this`model_transform_index, this`log
      ensures id == old(Index(ModelTransform))
      ensures forall q :: Index(q) == if q == ModelTransform then old(Index(q)) + 1 else old(Index(q))
      ensures log == old(log) + [CreateModelTransform(id, transform_data)]
    {
      id := model_transform_index;
      log := log + [CreateModelTransform(id, transform_data)];
      model_transform_index := model_transform_index + 1;
    }

    /** set_bone_channel_table: rewrites one bone channel's table; no counter moves. */
    method SetBoneChannelTableAt(bone_channel_index: int, channel_table: seq<int>)
      modifies this`log
      ensures log == old(log) + [SetBoneChannelTable(bone_channel_index, channel_table)]
    {
      log := log + [SetBoneChannelTable(bone_channel_index, channel_table)];
    }

    /** update_accel: sets one armature's acceleration; no counter moves. */
    method UpdateAccelAt(armature_index: int, acc_x: real, acc_y: real)
      modifies this`log
      ensures log == old(log) + [UpdateAccel(armature_index, [acc_x, acc_y])]
    {
      log := log + [UpdateAccel(armature_index, [acc_x, acc_y])];
    }

    /** compact_buffers: pulls the six compacted counters back by the shift counts; the other ten pools keep their counters. */
    method CompactBuffers(shift_counts: seq<int>)
      requires |shift_counts| >= 6
      modifies this`edge_index, this`bone_index, this`point_index, this`hull_index, this`armature_index, this`armature_bone_index
      ensures Six() == SlotCounters.Compacted(old(Six()), shift_counts)
      ensures forall q :: q !in CompactedPools ==> Index(q) == old(Index(q))
    {
      edge_index := edge_index - shift_counts[0];
      bone_index := bone_index - shift_counts[1];
      point_index := point_index - shift_counts[2];
      hull_index := hull_index - shift_counts[3];
      armature_index := armature_index - shift_counts[4];
      armature_bone_index := armature_bone_index - shift_counts[5];
    }

    /** linearize_kernel: runs `kernel` over `object_count` objects, one work group per launch, at ascending offsets. */
    method LinearizeKernel(kernel: CompactKernel, object_count: int)
      requires Valid()
      modifies this`log
      ensures log == old(log) + Calls(kernel, Plan(object_count, max_work_group_size, 0))
    {
      var launches := Compaction.LinearizeKernel(object_count, max_work_group_size);
      log := log + Calls(kernel, launches);
    }

    /** The armature, bone and point compaction kernels. */
    method RunFirstKernels(c: SlotCounters.Counters)
      requires Valid()
      modifies this`log
      ensures log == old(log) + Calls(CompactArmatures, Plan(c.entity, max_work_group_size, 0))
        + Calls(CompactBones, Plan(c.hullBone, max_work_group_size, 0))
        + Calls(CompactPoints, Plan(c.point, max_work_group_size, 0))
    {
      LinearizeKernel(CompactArmatures, c.entity);
      LinearizeKernel(CompactBones, c.hullBone);
      LinearizeKernel(CompactPoints, c.point);
    }

    /** The edge, hull and armature bone compaction kernels. */
    method RunLastKernels(c: SlotCounters.Counters)
      requires Valid()
      modifies this`log
      ensures log == old(log) + (Calls(CompactEdges, Plan(c.edge, max_work_group_size, 0))
        + Calls(CompactHulls, Plan(c.hull, max_work_group_size, 0))
        + Calls(CompactArmatureBones, Plan(c.entityBone, max_work_group_size, 0)))
    {
      LinearizeKernel(CompactEdges, c.edge);
      LinearizeKernel(CompactHulls, c.hull);
      LinearizeKernel(CompactArmatureBones, c.entityBone);
    }

    /** The part of delete_and_compact after a scan that found deleted armatures. */
    method CompactAll(c: SlotCounters.Counters)
      requires Valid()
      modifies this`log
      ensures log == old(log) + ShiftBufferSetup(c.hull, c.edge) + KernelRuns(c, max_work_group_size)
    {
      log := log + [EnsureCapacity(HullShift, c.hull), EnsureCapacity(EdgeShift, c.edge)];
      log := log + [Clear(HullShift), Clear(EdgeShift)];
      log := log + [Clear(PointShift), Clear(BoneShift), Clear(BoneBindShift)];
      ghost var prefix := log;
      RunFirstKernels(c);
      RunLastKernels(c);
      CompactAllLog(old(log), c, max_work_group_size, prefix, log);
    }

    /**
     * delete_and_compact. `reported` is what the delete scan reads back from
     * the device: the shift counts in the order edge, bone, point, hull,
     * armature, armature bone. When no armature was deleted the counters are
     * left alone.
     */
    method DeleteAndCompact(reported: seq<int>)
      requires Valid()
      requires |reported| == 6
      modifies this
      ensures reported[4] == 0 ==> Six() == old(Six())
      ensures reported[4] != 0 ==> Six() == SlotCounters.Compacted(old(Six()), reported)
      ensures forall q :: q !in CompactedPools ==> Index(q) == old(Index(q))
      ensures log == old(log)
        + [LocateOutOfBounds(old(armature_index)),
           ScanDeletes(old(armature_index), ScanPathFor(old(armature_index), max_scan_block_size))]
        + (if reported[4] == 0 then [] else ShiftBufferSetup(old(hull_index), old(edge_index)) + KernelRuns(old(Six()), max_work_group_size))
        + [ReleaseDeleteBuffers]
    {
      log := log + [LocateOutOfBounds(armature_index)];
      log := log + [ScanDeletes(armature_index, ScanPathFor(armature_index, max_scan_block_size))];
      var shift_counts := reported;
      if shift_counts[4] == 0 {
        log := log + [ReleaseDeleteBuffers];
        return;
      }
      CompactAll(Six());
      CompactBuffers(shift_counts);
      log := log + [ReleaseDeleteBuffers];
    }

    function NextMesh(): (r: int)
      reads this
      ensures r == Index(Mesh)
    {
      mesh_index
    }

    function NextArmature(): (r: int)
      reads this
      ensures r == Index(Armature)
    {
      armature_index
    }

    function NextHull(): (r: int)
      reads this
      ensures r == Index(Hull)
    {
      hull_index
    }

    function NextPoint(): (r: int)
      reads this
      ensures r == Index(Point)
    {
      point_index
    }

    function NextEdge(): (r: int)
      reads this
      ensures r == Index(Edge)
    {
      edge_index
    }

    function NextBone(): (r: int)
      reads this
      ensures r == Index(Bone)
    {
      bone_index
    }
  }
}
