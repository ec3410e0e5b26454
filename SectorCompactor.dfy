/**
 * The sector compactor: after a tick, entities flagged for deletion are
 * scanned on the GPU, which reports how many slots of each kind are freed
 * (the shift counts). When any entity was deleted, the per-kind shift buffers
 * are sized and cleared, every compaction kernel is run in ascending
 * single-group launches, and the controller's counters are pulled back by the
 * shift counts. GPU work is recorded in `log`; the scan's result is supplied
 * by the caller in place of reading it back from the device.
 */
module SectorCompactor {
  import opened SlotCounters
  import opened Compaction
  import SectorController

  datatype Buffer =
    | Delete1 | Delete2 | DeletePartial1 | DeletePartial2 | DeleteSizes
    | HullShift | EdgeShift | PointShift | HullBoneShift | EntityBoneShift

  datatype CompactKernel =
    | CompactEntities | CompactHullBones | CompactPoints | CompactEdges | CompactHulls | CompactEntityBones

  /** One GPU-side effect of the compactor, in issue order. */
  datatype Effect =
    | EnsureCapacity(buffer: Buffer, capacity: int)
    | Clear(buffer: Buffer)
    | ScanSingleBlock(n: int)
    | ScanMultiBlock(n: int, globalSize: int)
    | ScanPartials(buffer: Buffer, partSize: int)
    | CompleteMultiBlock(n: int, globalSize: int)
    | ReadSizes
    | Call(kernel: CompactKernel, launch: Launch)

  /** The shift buffers that must be clean before compaction starts. */
  const ShiftBuffers: set<Buffer> := {HullShift, EdgeShift, PointShift, HullBoneShift, EntityBoneShift}

  /** The effects of the delete scan for n entities along the chosen path. */
  function ScanEffects(n: int, path: ScanPath): seq<Effect>
  {
    match path
    case SingleBlock => [Clear(DeleteSizes), ScanSingleBlock(n), ReadSizes]
    case MultiBlock(_, gx, part) =>
      [EnsureCapacity(DeletePartial1, part), EnsureCapacity(DeletePartial2, part),
       ScanMultiBlock(n, gx), ScanPartials(DeletePartial1, part), ScanPartials(DeletePartial2, part),
       Clear(DeleteSizes), CompleteMultiBlock(n, gx), ReadSizes]
  }

  /** One compaction kernel run over a launch plan. */
  function Calls(kernel: CompactKernel, plan: seq<Launch>): seq<Effect>
  {
    seq(|plan|, i requires 0 <= i < |plan| => Call(kernel, plan[i]))
  }

  /** The compaction kernels in the order they run, each over its own kind's live count. */
  function KernelRuns(c: Counters, group: nat): seq<Effect>
    requires group > 0
  {
    Calls(CompactEntities, Plan(c.entity, group, 0))
    + Calls(CompactHullBones, Plan(c.hullBone, group, 0))
    + Calls(CompactPoints, Plan(c.point, group, 0))
    + (Calls(CompactEdges, Plan(c.edge, group, 0))
    + Calls(CompactHulls, Plan(c.hull, group, 0))
    + Calls(CompactEntityBones, Plan(c.entityBone, group, 0)))
  }

  /** The shift buffers sized to the live counts, then cleared. */
  function ShiftBufferSetup(c: Counters): seq<Effect>
  {
    [EnsureCapacity(HullShift, c.hull), EnsureCapacity(EdgeShift, c.edge), EnsureCapacity(PointShift, c.point),
     EnsureCapacity(HullBoneShift, c.hullBone), EnsureCapacity(EntityBoneShift, c.entityBone),
     Clear(HullShift), Clear(EdgeShift), Clear(PointShift), Clear(HullBoneShift), Clear(EntityBoneShift)]
  }

  /** Everything done after the scan when at least one entity was deleted. */
  function CompactEffects(c: Counters, group: nat): seq<Effect>
    requires group > 0
  {
    ShiftBufferSetup(c) + KernelRuns(c, group)
  }

  /** A run of effects made only of kernel launches. */
  ghost predicate OnlyCalls(s: seq<Effect>)
  {
    forall i :: 0 <= i < |s| ==> s[i].Call?
  }

  lemma OnlyCallsAppend(a: seq<Effect>, b: seq<Effect>)
    requires OnlyCalls(a) && OnlyCalls(b)
    ensures OnlyCalls(a + b)
  {
  }

  lemma {:induction false} KernelRunsOnlyCall(c: Counters, group: nat)
    requires group > 0
    ensures OnlyCalls(KernelRuns(c, group))
  {
    var a := Calls(CompactEntities, Plan(c.entity, group, 0));
    var b := Calls(CompactHullBones, Plan(c.hullBone, group, 0));
    var p := Calls(CompactPoints, Plan(c.point, group, 0));
    var e := Calls(CompactEdges, Plan(c.edge, group, 0));
    var h := Calls(CompactHulls, Plan(c.hull, group, 0));
    var eb := Calls(CompactEntityBones, Plan(c.entityBone, group, 0));
    OnlyCallsAppend(a, b);
    OnlyCallsAppend(a + b, p);
    OnlyCallsAppend(a + b + p, e);
    OnlyCallsAppend(a + b + p + e, h);
    OnlyCallsAppend(a + b + p + e + h, eb);
  }

  /** Clears followed by launches: every clear precedes every launch. */
  lemma ClearsThenCalls(prefix: seq<Effect>, runs: seq<Effect>)
    requires forall i :: 0 <= i < |prefix| ==> !prefix[i].Call?
    requires OnlyCalls(runs)
    ensures forall i, j :: (0 <= i < |prefix + runs| && 0 <= j < |prefix + runs|
      && (prefix + runs)[i].Clear? && (prefix + runs)[j].Call?) ==> i < j
  {
  }

  /** Every shift buffer is cleared, and every clear comes before the first compaction kernel launch. */
  lemma {:induction false} ClearsBeforeKernels(c: Counters, group: nat)
    requires group > 0
    ensures forall b :: b in ShiftBuffers ==> Clear(b) in CompactEffects(c, group)
    ensures var e := CompactEffects(c, group);
      forall i, j :: 0 <= i < |e| && 0 <= j < |e| && e[i].Clear? && e[j].Call? ==> i < j
  {
    var prefix := ShiftBufferSetup(c);
    var runs := KernelRuns(c, group);
    KernelRunsOnlyCall(c, group);
    ClearsThenCalls(prefix, runs);
    forall b | b in ShiftBuffers ensures Clear(b) in prefix + runs {
      var k := if b == HullShift then 5 else if b == EdgeShift then 6 else if b == PointShift then 7
               else if b == HullBoneShift then 8 else 9;
      assert (prefix + runs)[k] == Clear(b);
    }
  }

  lemma AppendAssoc(a: seq<Effect>, b: seq<Effect>, c: seq<Effect>)
    ensures a + b + c == a + (b + c)
  {
  }

  class SectorCompactor {
    const controller: SectorController.SectorController
    const max_work_group_size: nat
    const max_scan_block_size: nat
    /** The GPU effects issued so far. */
    var log: seq<Effect>

    constructor (controller: SectorController.SectorController, max_work_group_size: nat, max_scan_block_size: nat)
      requires max_work_group_size > 0 && max_scan_block_size > 0
      ensures this.controller == controller && log == []
      ensures this.max_work_group_size == max_work_group_size && this.max_scan_block_size == max_scan_block_size
    {
      this.controller := controller;
      this.max_work_group_size := max_work_group_size;
      this.max_scan_block_size := max_scan_block_size;
      log := [];
    }

    ghost predicate Valid()
      reads this
    {
      max_work_group_size > 0 && max_scan_block_size > 0
    }

    /** linearize_kernel: runs `kernel` over `object_count` objects, one work group per launch, at ascending offsets. */
    method LinearizeKernel(kernel: CompactKernel, object_count: int)
      requires Valid()
      modifies this`log
      ensures log == old(log) + Calls(kernel, Plan(object_count, max_work_group_size, 0))
    {
      var launches := Compaction.LinearizeKernel(object_count, max_work_group_size);
      log := log + Calls(kernel, launches);
    }

    /** scan_deletes: picks the single- or multi-block scan and returns the six shift counts the device reports. */
    method ScanDeletes(n: int, reported: seq<int>) returns (shift_counts: seq<int>)
      requires Valid()
      modifies this`log
      ensures shift_counts == reported
      ensures log == old(log) + ScanEffects(n, ScanPathFor(n, max_scan_block_size))
    {
      var k := WorkGroupCount(n, max_scan_block_size);
      if k == 1 {
        log := log + [Clear(DeleteSizes), ScanSingleBlock(n), ReadSizes];
      } else {
        var gx := k * max_scan_block_size;
        var part_size := k * 2;
        log := log + [EnsureCapacity(DeletePartial1, part_size), EnsureCapacity(DeletePartial2, part_size)];
        log := log + [ScanMultiBlock(n, gx)];
        log := log + [ScanPartials(DeletePartial1, part_size), ScanPartials(DeletePartial2, part_size)];
        log := log + [Clear(DeleteSizes), CompleteMultiBlock(n, gx), ReadSizes];
      }
      shift_counts := reported;
    }

    /** The part of delete_and_compact after a non-empty scan: size and clear the shift buffers, then run every compaction kernel. */
    method CompactAll(c: Counters)
      requires Valid()
      modifies this`log
      ensures log == old(log) + CompactEffects(c, max_work_group_size)
    {
      ghost var before := log;
      log := log + [EnsureCapacity(HullShift, c.hull), EnsureCapacity(EdgeShift, c.edge),
                    EnsureCapacity(PointShift, c.point), EnsureCapacity(HullBoneShift, c.hullBone),
                    EnsureCapacity(EntityBoneShift, c.entityBone)];
      log := log + [Clear(HullShift), Clear(EdgeShift), Clear(PointShift), Clear(HullBoneShift), Clear(EntityBoneShift)];
      assert log == before + ShiftBufferSetup(c);
      ghost var prefix := log;
      ghost var g := max_work_group_size;
      ghost var first := Calls(CompactEntities, Plan(c.entity, g, 0))
        + Calls(CompactHullBones, Plan(c.hullBone, g, 0)) + Calls(CompactPoints, Plan(c.point, g, 0));
      ghost var last := Calls(CompactEdges, Plan(c.edge, g, 0))
        + Calls(CompactHulls, Plan(c.hull, g, 0)) + Calls(CompactEntityBones, Plan(c.entityBone, g, 0));
      RunFirstKernels(c);
      assert log == prefix + first;
      RunLastKernels(c);
      assert log == prefix + first + last;
      AppendAssoc(prefix, first, last);
      assert KernelRuns(c, g) == first + last;
    }

    /** The entity, hull bone and point compaction kernels. */
    method RunFirstKernels(c: Counters)
      requires Valid()
      modifies this`log
      ensures log == old(log) + Calls(CompactEntities, Plan(c.entity, max_work_group_size, 0))
        + Calls(CompactHullBones, Plan(c.hullBone, max_work_group_size, 0))
        + Calls(CompactPoints, Plan(c.point, max_work_group_size, 0))
    {
      LinearizeKernel(CompactEntities, c.entity);
      LinearizeKernel(CompactHullBones, c.hullBone);
      LinearizeKernel(CompactPoints, c.point);
    }

    /** The edge, hull and entity bone compaction kernels. */
    method RunLastKernels(c: Counters)
      requires Valid()
      modifies this`log
      ensures log == old(log) + (Calls(CompactEdges, Plan(c.edge, max_work_group_size, 0))
        + Calls(CompactHulls, Plan(c.hull, max_work_group_size, 0))
        + Calls(CompactEntityBones, Plan(c.entityBone, max_work_group_size, 0)))
    {
      LinearizeKernel(CompactEdges, c.edge);
      LinearizeKernel(CompactHulls, c.hull);
      LinearizeKernel(CompactEntityBones, c.entityBone);
    }

    /**
     * delete_and_compact. `reported` is what the delete scan reads back from the
     * device: the shift counts in the order edge, hull bone, point, hull,
     * entity, entity bone.
     */
    method DeleteAndCompact(reported: seq<int>)
      requires Valid()
      requires |reported| == 6
      modifies this`log, controller
      ensures controller.log == old(controller.log)
      ensures reported[4] == 0 ==> controller.Counters() == old(controller.Counters())
      ensures reported[4] != 0 ==> controller.Counters() == Compacted(old(controller.Counters()), reported)
      ensures log == old(log)
        + [EnsureCapacity(Delete1, old(controller.entity_index)), EnsureCapacity(Delete2, old(controller.entity_index))]
        + ScanEffects(old(controller.entity_index), ScanPathFor(old(controller.entity_index), max_scan_block_size))
        + (if reported[4] == 0 then [] else CompactEffects(old(controller.Counters()), max_work_group_size))
    {
      var next_entity := controller.NextEntity();
      log := log + [EnsureCapacity(Delete1, next_entity), EnsureCapacity(Delete2, next_entity)];
      var shift_counts := ScanDeletes(next_entity, reported);
      if shift_counts[4] == 0 {
        return;
      }
      var c := controller.Counters();
      CompactAll(c);
      controller.Compact(shift_counts);
    }
  }
}
