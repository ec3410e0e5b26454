# bvge core, modelled in Dafny

bvge is a 2D physics and game engine written in Java. Its simulation runs as
OpenCL kernels on the GPU. This project models the CPU-side bookkeeping that
drives those kernels, file by file, and proves what that bookkeeping promises:

- **Constants, IDs and slots.** Bit flags and sizes (`Constants`). The six
  per-kind allocation counters of the sector memory (`SlotCounters`,
  `SectorController`) and the kernel-call records they drive
  (`SectorInput`, `GPUCoreMemory`).
- **Compaction.** Turning shift counts into the new counters and the calls
  that move the buffers (`Compaction`, `SectorCompactor`).
- **Loading and unloading the world.** Objects are read back from the GPU,
  grouped by sector, and broken into pieces (`WorldUnloading`,
  `UnorderedCoreBuffers`). Sectors are loaded around the camera
  (`WorldLoading`), and stored entities are recreated with consistent IDs
  (`EntityLoading`).
- **Physics objects.** Gift-wrap convex hulls and id tables
  (`PhysicsObjects`), and the spatial-map key bank, key counts and
  candidate search (`SpatialMap`).
- **Player and animation.** The movement, animation and player state
  machines and the transition table (`MovementStates`, `AnimationStates`,
  `PlayerStates`, `AnimationSettings`, `StateIO`). The player controller's
  input handling (`PlayerControl`) and the inventory selection
  (`Inventory`).
- **GPU device set-up.** Work-group fitting, debug labels and the generated
  CRUD and compaction kernel sources (`GPUDevice`, `KernelSource`).
- **Editor server.** Reading requests, routing them, and framing the
  responses for static assets (`EditorRequests`, `EditorRouting`,
  `StaticAssets`, `StaticAssetResponses`).
- **Rendering bookkeeping.** The mesh registry (`MeshRegistration`), sprite
  batches (`SpriteBatches`) and the HUD text and label layout (`Hud`).

Where the Java updates an object in place, the model is a class with the
same fields and `modifies` clauses. Pure computations become functions and
lemmas. Java loops become methods with loop invariants, each proved against
a specification function. `JavaNumbers` (narrowing casts, bit masks), `JavaText` (`Integer.toString`,
`Integer.toBinaryString` and the parsers that read them back) and
`JavaStrings` (`trim`, `indexOf`, `equalsIgnoreCase`) hold the pieces of
Java semantics the model needs. `WorldSectors` holds the values the world
loader and unloader share, and `Wrappers` holds `Option` and `Result`.

## Model

| member | source | states |
|---|---|---|
| Constants.MaxBatchSizeValue | src/main/java/com/controllerface/bvge/util/Constants.java:12-17 | MAX_BATCH_SIZE, the base size 256 squared times the multiplier 4, is 262144 |
| Constants.HullFlagsOrdinal | src/main/java/com/controllerface/bvge/util/Constants.java:29-53 | the i-th hull flag, from IS_STATIC to SENSOR_HIT, is the single bit 2^i |
| Constants.SmallFlagsOrdinal | src/main/java/com/controllerface/bvge/util/Constants.java:65-110 | the same holds for the edge, point and entity flags |
| Constants.OrdinalBitsAreDistinct | src/main/java/com/controllerface/bvge/util/Constants.java:29-110 | an enum whose i-th constant is 2^i has single-bit values that are pairwise different |
| Constants.FlagsAreDistinctSingleBits | src/main/java/com/controllerface/bvge/util/Constants.java:29-110 | every flag of the four enums is a single bit that no other flag of its enum shares |
| Constants.FlagsSrcIsOneLinePerFlag | src/main/java/com/controllerface/bvge/util/Constants.java:122-148 | the generated source of a non-empty enum is one `#define` line per constant, in enum order, each ending in a line break |
| Constants.DefineLineOfBit | src/main/java/com/controllerface/bvge/util/Constants.java:125 | the line of the flag with bit k is `#define NAME 0b1` followed by k zeros |
| SlotCounters.Expanded | src/main/java/com/controllerface/bvge/memory/sectors/SectorController.java:92-105 | expand adds the amount given for each kind to that kind's counter and to no other |
| SlotCounters.ShiftSlotBijective | src/main/java/com/controllerface/bvge/memory/sectors/SectorController.java:107-115 | compact's slot order (edge, hull bone, point, hull, entity, entity bone) assigns each of the six kinds exactly one of the six shift-count slots |
| SlotCounters.Compacted | src/main/java/com/controllerface/bvge/memory/sectors/SectorController.java:107-115 | compact subtracts from each counter the shift count found in that kind's slot, in the order edge, hull bone, point, hull, entity, entity bone |
| SlotCounters.ShiftCountsOf | src/main/java/com/controllerface/bvge/memory/sectors/SectorController.java:107-115 | a per-kind amount laid out in compact's slot order is a six-element array holding each kind's amount in its slot |
| SlotCounters.ExpandThenCompact | src/main/java/com/controllerface/bvge/memory/sectors/SectorController.java:92-115 | expanding by some amounts and then compacting by the same amounts, laid out in compact's order, restores every counter |
| SlotCounters.CompactThenExpand | src/main/java/com/controllerface/bvge/memory/sectors/SectorController.java:92-115 | compacting and then expanding by the same amounts also restores every counter |
| SectorController.CreatedAtRest | src/main/java/com/controllerface/bvge/memory/sectors/SectorController.java:233-235 | a two-element position becomes (x, y, x, y): the previous position equals the current one |
| SectorController.NonPairPassesThrough | src/main/java/com/controllerface/bvge/memory/sectors/SectorController.java:233-235 | a position of any other length is passed on unchanged |
| SectorController.SectorController.constructor | src/main/java/com/controllerface/bvge/memory/sectors/SectorController.java:55-80 | a new controller starts with all six counters at zero and has issued no kernel call |
| SectorController.SectorController.Reset | src/main/java/com/controllerface/bvge/memory/sectors/SectorController.java:82-90 | reset sets all six counters to zero and issues no kernel call |
| SectorController.SectorController.Expand | src/main/java/com/controllerface/bvge/memory/sectors/SectorController.java:92-105 | expand adds each count to its own counter |
| SectorController.SectorController.Compact | src/main/java/com/controllerface/bvge/memory/sectors/SectorController.java:107-115 | compact subtracts the six shift counts in the order edge, hull bone, point, hull, entity, entity bone |
| SectorController.SectorController.CreatePoint | src/main/java/com/controllerface/bvge/memory/sectors/SectorController.java:223-248 | returns the old point counter, raises it by exactly one and leaves the other five alone; grows the point buffers to that capacity and then runs the create-point kernel on slot `id` with the (x, y, x, y)-expanded position and the hit count cut to a Java short |
| SectorController.SectorController.CreateEdge | src/main/java/com/controllerface/bvge/memory/sectors/SectorController.java:251-265 | the same for edges: the old edge counter is returned and only it goes up by one, after a capacity check and the create-edge kernel call |
| SectorController.SectorController.CreateHull | src/main/java/com/controllerface/bvge/memory/sectors/SectorController.java:268-306 | the same for hulls; the hull kernel gets the expanded position and the initial integrity value |
| SectorController.SectorController.CreateEntity | src/main/java/com/controllerface/bvge/memory/sectors/SectorController.java:309-342 | the same for entities; the entity kernel gets the animation slots initialised to (index, 0, 0, 0), (-1, -1, -1, -1) and zero times |
| SectorController.SectorController.CreateHullBone | src/main/java/com/controllerface/bvge/memory/sectors/SectorController.java:345-358 | the same for hull bones |
| SectorController.SectorController.CreateEntityBone | src/main/java/com/controllerface/bvge/memory/sectors/SectorController.java:361-374 | the same for entity bones |
| SectorController.SectorController.NextPoint | src/main/java/com/controllerface/bvge/memory/sectors/SectorController.java:377-380 | returns the point counter and changes nothing |
| SectorController.SectorController.NextEdge | src/main/java/com/controllerface/bvge/memory/sectors/SectorController.java:383-386 | returns the edge counter and changes nothing |
| SectorController.SectorController.NextHull | src/main/java/com/controllerface/bvge/memory/sectors/SectorController.java:389-392 | returns the hull counter and changes nothing |
| SectorController.SectorController.NextEntity | src/main/java/com/controllerface/bvge/memory/sectors/SectorController.java:395-398 | returns the entity counter and changes nothing |
| SectorController.SectorController.NextHullBone | src/main/java/com/controllerface/bvge/memory/sectors/SectorController.java:401-404 | returns the hull-bone counter and changes nothing |
| SectorController.SectorController.NextEntityBone | src/main/java/com/controllerface/bvge/memory/sectors/SectorController.java:407-410 | returns the entity-bone counter and changes nothing |
| SectorInput.SectorInput.constructor | src/main/java/com/controllerface/bvge/game/world/sectors/SectorInput.java:31-92 | a new sector input starts with all six counters at zero and has issued no kernel call |
| SectorInput.SectorInput.CreatePoint | src/main/java/com/controllerface/bvge/game/world/sectors/SectorInput.java:94-114 | returns the old point counter, raises it by exactly one and leaves the other five alone; grows the point buffers and runs the create-point kernel on slot `id` with the (x, y, x, y)-expanded position |
| SectorInput.SectorInput.CreateEdge | src/main/java/com/controllerface/bvge/game/world/sectors/SectorInput.java:116-129 | the same for edges (this variant has no pin argument) |
| SectorInput.SectorInput.CreateHull | src/main/java/com/controllerface/bvge/game/world/sectors/SectorInput.java:131-158 | the same for hulls |
| SectorInput.SectorInput.CreateEntity | src/main/java/com/controllerface/bvge/game/world/sectors/SectorInput.java:160-191 | the same for entities; this variant's kernel gets two-slot animation arrays (index, -1) and (time, 0) |
| SectorInput.SectorInput.CreateHullBone | src/main/java/com/controllerface/bvge/game/world/sectors/SectorInput.java:193-206 | the same for hull bones |
| SectorInput.SectorInput.CreateEntityBone | src/main/java/com/controllerface/bvge/game/world/sectors/SectorInput.java:208-221 | the same for entity bones |
| SectorInput.SectorInput.PointIndex | src/main/java/com/controllerface/bvge/game/world/sectors/SectorInput.java:223-226 | returns the point counter and changes nothing |
| SectorInput.SectorInput.EdgeIndex | src/main/java/com/controllerface/bvge/game/world/sectors/SectorInput.java:228-231 | returns the edge counter and changes nothing |
| SectorInput.SectorInput.HullIndex | src/main/java/com/controllerface/bvge/game/world/sectors/SectorInput.java:233-236 | returns the hull counter and changes nothing |
| SectorInput.SectorInput.EntityIndex | src/main/java/com/controllerface/bvge/game/world/sectors/SectorInput.java:238-241 | returns the entity counter and changes nothing |
| SectorInput.SectorInput.HullBoneIndex | src/main/java/com/controllerface/bvge/game/world/sectors/SectorInput.java:243-246 | returns the hull-bone counter and changes nothing |
| SectorInput.SectorInput.EntityBoneIndex | src/main/java/com/controllerface/bvge/game/world/sectors/SectorInput.java:248-251 | returns the entity-bone counter and changes nothing |
| SectorInput.SectorInput.Reset | src/main/java/com/controllerface/bvge/game/world/sectors/SectorInput.java:253-261 | reset sets all six counters to zero |
| SectorInput.SectorInput.Expand | src/main/java/com/controllerface/bvge/game/world/sectors/SectorInput.java:263-271 | expand adds each count to its own counter |
| SectorInput.SectorInput.Compact | src/main/java/com/controllerface/bvge/game/world/sectors/SectorInput.java:273-281 | compact subtracts the shift counts in the order edge, hull bone, point, hull, entity, entity bone, so that expand followed by compact by the same amounts restores the counters (SlotCounters.ExpandThenCompact) |
| Compaction.PlanOffsets | src/main/java/com/controllerface/bvge/memory/sectors/SectorCompactor.java:124-136 | the i-th launch of linearize_kernel starts i whole work groups past the first offset: 0, g, 2g, ... |
| Compaction.PlanCovers | src/main/java/com/controllerface/bvge/memory/sectors/SectorCompactor.java:124-136 | every launch has a size greater than 0 and at most the maximum work-group size, and the launches tile [0, object_count) in ascending order without gap or overlap |
| Compaction.PlanLength | src/main/java/com/controllerface/bvge/memory/sectors/SectorCompactor.java:124-136 | linearize_kernel issues ceil(object_count / group) launches |
| Compaction.LinearizeKernel | src/main/java/com/controllerface/bvge/memory/sectors/SectorCompactor.java:124-136 | the loop that counts `remaining` down by the group size while `offset` grows by each launch's count issues exactly the launches of the plan above |
| Compaction.WorkGroupCountIsCeiling | src/main/java/com/controllerface/bvge/cl/GPU.java:546-549 | for every n, negative counts included, work_group_count(n) is the ceiling of n / max_scan_block_size: the k with (k - 1) * block < n <= k * block |
| Compaction.WorkGroupCount | src/main/java/com/controllerface/bvge/cl/GPU.java:546-549 | work_group_count keeps the sign of n: non-negative for n >= 0, non-positive for n <= 0 |
| Compaction.ScanPathChoice | src/main/java/com/controllerface/bvge/memory/sectors/SectorCompactor.java:193-204 | scan_deletes takes the single-block path exactly when work_group_count(n) == 1, that is when 0 < n <= block size; the multi-block path sizes its partial buffers to twice the block count (lines 163-166) |
| SectorCompactor.KernelRunsOnlyCall | src/main/java/com/controllerface/bvge/memory/sectors/SectorCompactor.java:229-240 | the compaction phase issues only kernel launches |
| SectorCompactor.ClearsBeforeKernels | src/main/java/com/controllerface/bvge/memory/sectors/SectorCompactor.java:218-240 | every shift buffer is cleared, and every clear comes before every compaction kernel launch |
| SectorCompactor.SectorCompactor.constructor | src/main/java/com/controllerface/bvge/memory/sectors/SectorCompactor.java:70-122 | the compactor is bound to its sector controller and has issued nothing yet |
| SectorCompactor.SectorCompactor.LinearizeKernel | src/main/java/com/controllerface/bvge/memory/sectors/SectorCompactor.java:124-136 | appends to the effect log exactly the launches of Compaction.Plan for the given kernel |
| SectorCompactor.SectorCompactor.ScanDeletes | src/main/java/com/controllerface/bvge/memory/sectors/SectorCompactor.java:193-204 | returns the shift counts the scan reports, after the effects of the single-block or the multi-block path chosen by Compaction.ScanPathFor |
| SectorCompactor.SectorCompactor.CompactAll | src/main/java/com/controllerface/bvge/memory/sectors/SectorCompactor.java:218-240 | sizes and clears the five shift buffers, then runs the six compaction kernels, in the order entities, hull bones, points, edges, hulls, entity bones, each over its own counter |
| SectorCompactor.SectorCompactor.RunFirstKernels | src/main/java/com/controllerface/bvge/memory/sectors/SectorCompactor.java:235-237 | linearizes the entity, hull-bone and point compaction kernels in that order |
| SectorCompactor.SectorCompactor.RunLastKernels | src/main/java/com/controllerface/bvge/memory/sectors/SectorCompactor.java:238-240 | linearizes the edge, hull and entity-bone compaction kernels in that order |
| SectorCompactor.SectorCompactor.DeleteAndCompact | src/main/java/com/controllerface/bvge/memory/sectors/SectorCompactor.java:206-247 | sizes the delete buffers to the entity count and runs the delete scan; when shift_counts[4] == 0 it stops and the counters are unchanged; otherwise it runs the whole compaction and then applies controller.compact(shift_counts) exactly once |
| GPUCoreMemory.CompactAllLog | src/main/java/com/controllerface/bvge/cl/GPUCoreMemory.java:538-559 | the effects delete_and_compact issues after a non-empty scan are the shift-buffer sizing and clearing followed by the six compaction kernel runs |
| GPUCoreMemory.KernelRunsOnlyCall | src/main/java/com/controllerface/bvge/cl/GPUCoreMemory.java:554-559 | the compaction phase issues only kernel launches |
| GPUCoreMemory.ClearsBeforeKernels | src/main/java/com/controllerface/bvge/cl/GPUCoreMemory.java:541-559 | every shift buffer is cleared, and every clear comes before every compaction kernel launch |
| GPUCoreMemory.GPUCoreMemory.constructor | src/main/java/com/controllerface/bvge/cl/GPUCoreMemory.java:65-263 | all sixteen pool counters start at zero and nothing has been issued |
| GPUCoreMemory.GPUCoreMemory.NewAnimationTimings | src/main/java/com/controllerface/bvge/cl/GPUCoreMemory.java:297-305 | returns the animation timings pool's counter before the call and post-increments it by one; every other pool's counter is unchanged; one create kernel call writes slot `id` |
| GPUCoreMemory.GPUCoreMemory.NewBoneChannel | src/main/java/com/controllerface/bvge/cl/GPUCoreMemory.java:307-318 | returns the bone channel pool's counter before the call and post-increments it by one; every other pool's counter is unchanged; one create kernel call writes slot `id` |
| GPUCoreMemory.GPUCoreMemory.NewKeyframe | src/main/java/com/controllerface/bvge/cl/GPUCoreMemory.java:320-329 | returns the keyframe pool's counter before the call and post-increments it by one; every other pool's counter is unchanged; one create kernel call writes slot `id` |
| GPUCoreMemory.GPUCoreMemory.NewTextureUv | src/main/java/com/controllerface/bvge/cl/GPUCoreMemory.java:331-339 | returns the texture UV pool's counter before the call and post-increments it by one; every other pool's counter is unchanged; one create kernel call writes slot `id` |
| GPUCoreMemory.GPUCoreMemory.NewEdge | src/main/java/com/controllerface/bvge/cl/GPUCoreMemory.java:341-349 | returns the edge pool's counter before the call and post-increments it by one; every other pool's counter is unchanged; one create kernel call writes slot `id` |
| GPUCoreMemory.GPUCoreMemory.NewHull | src/main/java/com/controllerface/bvge/cl/GPUCoreMemory.java:364-376 | returns the hull pool's counter before the call and post-increments it by one; every other pool's counter is unchanged; one create kernel call writes slot `id` |
| GPUCoreMemory.GPUCoreMemory.NewMeshReference | src/main/java/com/controllerface/bvge/cl/GPUCoreMemory.java:378-386 | returns the mesh reference pool's counter before the call and post-increments it by one; every other pool's counter is unchanged; one create kernel call writes slot `id` |
| GPUCoreMemory.GPUCoreMemory.NewMeshFace | src/main/java/com/controllerface/bvge/cl/GPUCoreMemory.java:388-396 | returns the mesh face pool's counter before the call and post-increments it by one; every other pool's counter is unchanged; one create kernel call writes slot `id` |
| GPUCoreMemory.GPUCoreMemory.NewArmature | src/main/java/com/controllerface/bvge/cl/GPUCoreMemory.java:398-411 | returns the armature pool's counter before the call and post-increments it by one; every other pool's counter is unchanged; one create kernel call writes slot `id` |
| GPUCoreMemory.GPUCoreMemory.NewVertexReference | src/main/java/com/controllerface/bvge/cl/GPUCoreMemory.java:413-423 | returns the vertex reference pool's counter before the call and post-increments it by one; every other pool's counter is unchanged; one create kernel call writes slot `id` |
| GPUCoreMemory.GPUCoreMemory.NewBoneBindPose | src/main/java/com/controllerface/bvge/cl/GPUCoreMemory.java:425-434 | returns the bone bind pose pool's counter before the call and post-increments it by one; every other pool's counter is unchanged; one create kernel call writes slot `id` |
| GPUCoreMemory.GPUCoreMemory.NewBoneReference | src/main/java/com/controllerface/bvge/cl/GPUCoreMemory.java:436-444 | returns the bone reference pool's counter before the call and post-increments it by one; every other pool's counter is unchanged; one create kernel call writes slot `id` |
| GPUCoreMemory.GPUCoreMemory.NewBone | src/main/java/com/controllerface/bvge/cl/GPUCoreMemory.java:446-455 | returns the bone pool's counter before the call and post-increments it by one; every other pool's counter is unchanged; one create kernel call writes slot `id` |
| GPUCoreMemory.GPUCoreMemory.NewArmatureBone | src/main/java/com/controllerface/bvge/cl/GPUCoreMemory.java:457-466 | returns the armature bone pool's counter before the call and post-increments it by one; every other pool's counter is unchanged; one create kernel call writes slot `id` |
| GPUCoreMemory.GPUCoreMemory.NewModelTransform | src/main/java/com/controllerface/bvge/cl/GPUCoreMemory.java:468-476 | returns the model transform pool's counter before the call and post-increments it by one; every other pool's counter is unchanged; one create kernel call writes slot `id` |
| GPUCoreMemory.GPUCoreMemory.NewPoint | src/main/java/com/controllerface/bvge/cl/GPUCoreMemory.java:351-362 | returns the old point counter and post-increments it, other counters unchanged; the new point's previous position equals its current position (x, y, x, y) |
| GPUCoreMemory.GPUCoreMemory.SetBoneChannelTableAt | src/main/java/com/controllerface/bvge/cl/GPUCoreMemory.java:478-484 | one kernel call; no counter moves |
| GPUCoreMemory.GPUCoreMemory.UpdateAccelAt | src/main/java/com/controllerface/bvge/cl/GPUCoreMemory.java:486-492 | one kernel call setting the armature's acceleration; no counter moves |
| GPUCoreMemory.GPUCoreMemory.CompactBuffers | src/main/java/com/controllerface/bvge/cl/GPUCoreMemory.java:683-691 | subtracts the six shift counts from the edge, bone, point, hull, armature and armature-bone counters in that order; the other ten counters keep their values |
| GPUCoreMemory.GPUCoreMemory.LinearizeKernel | src/main/java/com/controllerface/bvge/cl/GPUCoreMemory.java:567-593 | runs the kernel over the objects in launches of at most one work group, at ascending offsets (Compaction.Plan) |
| GPUCoreMemory.GPUCoreMemory.RunFirstKernels | src/main/java/com/controllerface/bvge/cl/GPUCoreMemory.java:554-556 | linearizes the armature, bone and point compaction kernels in that order |
| GPUCoreMemory.GPUCoreMemory.RunLastKernels | src/main/java/com/controllerface/bvge/cl/GPUCoreMemory.java:557-559 | linearizes the edge, hull and armature-bone compaction kernels in that order |
| GPUCoreMemory.GPUCoreMemory.CompactAll | src/main/java/com/controllerface/bvge/cl/GPUCoreMemory.java:538-559 | sizes and clears the shift buffers, then runs the six compaction kernels |
| GPUCoreMemory.GPUCoreMemory.DeleteAndCompact | src/main/java/com/controllerface/bvge/cl/GPUCoreMemory.java:509-565 | when the scan reports shift_counts[4] == 0 (no armature deleted) it exits early with every counter unchanged; otherwise it clears the shift buffers, runs the compaction kernels and subtracts the shift counts; the delete buffers are released on both paths |
| GPUCoreMemory.GPUCoreMemory.NextMesh | src/main/java/com/controllerface/bvge/cl/GPUCoreMemory.java:267-270 | returns the mesh counter |
| GPUCoreMemory.GPUCoreMemory.NextArmature | src/main/java/com/controllerface/bvge/cl/GPUCoreMemory.java:272-275 | returns the armature counter |
| GPUCoreMemory.GPUCoreMemory.NextHull | src/main/java/com/controllerface/bvge/cl/GPUCoreMemory.java:277-280 | returns the hull counter |
| GPUCoreMemory.GPUCoreMemory.NextPoint | src/main/java/com/controllerface/bvge/cl/GPUCoreMemory.java:282-285 | returns the point counter |
| GPUCoreMemory.GPUCoreMemory.NextEdge | src/main/java/com/controllerface/bvge/cl/GPUCoreMemory.java:287-290 | returns the edge counter |
| GPUCoreMemory.GPUCoreMemory.NextBone | src/main/java/com/controllerface/bvge/cl/GPUCoreMemory.java:292-295 | returns the bone counter |
| SpatialMap.CellsInRange | src/main/java/com/controllerface/bvge/ecs/systems/physics/SpatialMap.java:96-106 | every cell a body's key walk records lies in its spatial-index rectangle and has a key index x_subdivisions*y + x inside [0, directory length); cells outside are skipped |
| SpatialMap.ColumnInRange | src/main/java/com/controllerface/bvge/ecs/systems/physics/SpatialMap.java:98-106 | the same for the cells of one column of the walk |
| SpatialMap.BankSlicesTile | src/main/java/com/controllerface/bvge/ecs/systems/physics/SpatialMap.java:124-142 | body i's bank offset, times the key width, is the running total of the earlier bank sizes; the bodies' slices of the key bank follow each other and fit in the total |
| SpatialMap.BankTotalEven | src/main/java/com/controllerface/bvge/ecs/systems/physics/SpatialMap.java:124-142 | the key bank size is a non-negative multiple of the key width, so every offset divides exactly |
| SpatialMap.MapRangesDisjoint | src/main/java/com/controllerface/bvge/ecs/systems/physics/SpatialMap.java:153-170 | the key-map ranges [offset, offset + count) of two cells i < j do not overlap and both lie inside the total count |
| SpatialMap.FirstFree | src/main/java/com/controllerface/bvge/ecs/systems/physics/SpatialMap.java:62-69 | the slot rebuildLocationEX writes is the first -1 in the cell's range; none exists exactly when the range holds no -1 |
| SpatialMap.PlaceFillsOneFreeSlot | src/main/java/com/controllerface/bvge/ecs/systems/physics/SpatialMap.java:62-69 | placing a body changes at most one slot, a -1 inside the cell's range, into the body index; a full range is left as it was |
| SpatialMap.PlaceCellsOnlyFills | src/main/java/com/controllerface/bvge/ecs/systems/physics/SpatialMap.java:42-73 | rebuilding one body's location only ever turns -1 slots into that body's index |
| SpatialMap.PlaceCellInRange | src/main/java/com/controllerface/bvge/ecs/systems/physics/SpatialMap.java:58-70 | a cell with keys is filled within its own range [offset, offset + count); a cell with none leaves the map unchanged |
| SpatialMap.RangeMatchesMembers | src/main/java/com/controllerface/bvge/ecs/systems/physics/SpatialMap.java:214-229 | a hit in one cell's range is reported exactly when its index is above the target and its box intersects the target's |
| SpatialMap.KeyMatchesMembers | src/main/java/com/controllerface/bvge/ecs/systems/physics/SpatialMap.java:197-231 | the matches are the union of the matches of the target's keys |
| SpatialMap.PairReportedOnce | src/main/java/com/controllerface/bvge/ecs/systems/physics/SpatialMap.java:208-229 | an intersecting pair a < b that shares a cell is reported when searching from a and never from b |
| SpatialMap.KeyMatchesAbove | src/main/java/com/controllerface/bvge/ecs/systems/physics/SpatialMap.java:208-229 | only candidates with an index above the target whose boxes intersect are reported |
| SpatialMap.SpatialMap.constructor | src/main/java/com/controllerface/bvge/ecs/systems/physics/SpatialMap.java:11-33 | the map starts at 1920 by 1080 with directory length x_subdivisions * y_subdivisions and spacing width / x_subdivisions, height / y_subdivisions |
| SpatialMap.SpatialMap.Init | src/main/java/com/controllerface/bvge/ecs/systems/physics/SpatialMap.java:28-33 | directoryLength = x_subdivisions * y_subdivisions, and the spacings are the width and height divided by the subdivisions |
| SpatialMap.SpatialMap.Resize | src/main/java/com/controllerface/bvge/ecs/systems/physics/SpatialMap.java:35-40 | stores the new width and height and recomputes the spacings and directory length |
| SpatialMap.SpatialMap.GenerateBodyKeys | src/main/java/com/controllerface/bvge/ecs/systems/physics/SpatialMap.java:86-117 | writes the body's in-range cells as (x, y) pairs into its slice of the key bank from bank_offset * KEY, leaves the rest of the bank unchanged, and raises key_counts at each visited cell's index by exactly one |
| SpatialMap.SpatialMap.BodyColumn | src/main/java/com/controllerface/bvge/ecs/systems/physics/SpatialMap.java:96-116 | one pass of the outer loop: records the column's cells after those already written |
| SpatialMap.SpatialMap.ColumnKeys | src/main/java/com/controllerface/bvge/ecs/systems/physics/SpatialMap.java:98-115 | the inner loop over one column: writes its in-range cells as pairs and counts each of them once |
| SpatialMap.SpatialMap.RowKey | src/main/java/com/controllerface/bvge/ecs/systems/physics/SpatialMap.java:100-114 | one cell: an out-of-range key index is skipped; otherwise the pair is written and its count goes up by one |
| SpatialMap.SpatialMap.CalculateKeyBankSize | src/main/java/com/controllerface/bvge/ecs/systems/physics/SpatialMap.java:124-142 | returns the sum of the bodies' bank sizes, and sets each body's offset to the running size divided by KEY |
| SpatialMap.SpatialMap.CalculateMapOffsets | src/main/java/com/controllerface/bvge/ecs/systems/physics/SpatialMap.java:153-170 | a cell with count 0 gets offset -1; any other cell gets the sum of the counts before it |
| SpatialMap.SpatialMap.RebuildLocation | src/main/java/com/controllerface/bvge/ecs/systems/physics/SpatialMap.java:42-73 | for every in-range cell of the body, in walk order, writes the body index into the first -1 slot of the cell's range |
| SpatialMap.SpatialMap.RebuildColumn | src/main/java/com/controllerface/bvge/ecs/systems/physics/SpatialMap.java:51-71 | the same for one column of the walk |
| SpatialMap.SpatialMap.RebuildCell | src/main/java/com/controllerface/bvge/ecs/systems/physics/SpatialMap.java:53-70 | the same for one cell; an out-of-range key index is skipped |
| SpatialMap.SpatialMap.FindMatches | src/main/java/com/controllerface/bvge/ecs/systems/physics/SpatialMap.java:190-234 | returns, as a set, every body above the target found in the key-map range of one of the target's cells whose box intersects the target's; a cell with count 0 or offset -1 is skipped |
| PhysicsObjects.TableSpansConsecutive | src/main/java/com/controllerface/bvge/physics/PhysicsObjects.java:596-601 | for ids handed out consecutively, make_table gives {first, last}, so last - first + 1 is the count; the empty list's table {0, -1} gives 0 |
| PhysicsObjects.MakeTable | src/main/java/com/controllerface/bvge/physics/PhysicsObjects.java:596-601 | make_table gives a two-slot table: the first and the last id of a non-empty list, and for an empty list a table whose span last - first + 1 is zero |
| PhysicsObjects.GetIndex | src/main/java/com/controllerface/bvge/physics/PhysicsObjects.java:603-608 | get_index keeps the -1 "no object" marker and maps any other offset to one of the ids created so far |
| PhysicsObjects.GetIndexConsecutive | src/main/java/com/controllerface/bvge/physics/PhysicsObjects.java:603-608 | get_index maps -1 to -1 and any other offset to ids[offset], which for consecutive ids is the first id plus the offset |
| PhysicsObjects.FindBoneIndex | src/main/java/com/controllerface/bvge/physics/PhysicsObjects.java:670-675 | a null bone name gives -1; a name present in the bone map gives its id; a name absent from the map fails, as unboxing the missing entry does |
| PhysicsObjects.NonHullLength | src/main/java/com/controllerface/bvge/physics/PhysicsObjects.java:721-745 | the vertices left out of the hull number the source length minus the hull positions the hull lists |
| PhysicsObjects.DistinctSetSize | src/main/java/com/controllerface/bvge/physics/PhysicsObjects.java:721-745 | a hull of distinct positions lists as many positions as it has entries |
| PhysicsObjects.InteriorCompletesHull | src/main/java/com/controllerface/bvge/physics/PhysicsObjects.java:710-745 | for a hull of distinct in-range positions, generate_interior_hull succeeds with every slot filled, and the convex and interior hulls together have exactly as many vertices as the source |
| PhysicsObjects.GenerateConvexHull | src/main/java/com/controllerface/bvge/physics/PhysicsObjects.java:710-719 | generate_convex_hull gives one vertex per hull position, each taken from the source mesh |
| PhysicsObjects.GenerateInteriorHull | src/main/java/com/controllerface/bvge/physics/PhysicsObjects.java:721-745 | generate_interior_hull gives source length minus hull length slots (none when the hull is as long as the source), every filled slot holding a source vertex; it fails only when the source is longer than the hull and the non-hull vertices overflow the array |
| PhysicsObjects.OrientationSwap | src/main/java/com/controllerface/bvge/physics/PhysicsObjects.java:748-760 | orientation is 0 (collinear), 1 (value > 0) or 2 (otherwise); swapping the last two points keeps 0 and exchanges 1 and 2 |
| PhysicsObjects.Orientation | src/main/java/com/controllerface/bvge/physics/PhysicsObjects.java:748-760 | orientation answers 0, 1 or 2, and 0 (collinear) whenever two of the three points coincide |
| PhysicsObjects.Leftmost | src/main/java/com/controllerface/bvge/physics/PhysicsObjects.java:778-786 | the starting point is the first of the points with the smallest x |
| PhysicsObjects.WrapStaysInInput | src/main/java/com/controllerface/bvge/physics/PhysicsObjects.java:788-822 | every vertex the gift wrap emits is one of the input points |
| PhysicsObjects.FirstIndexOf | src/main/java/com/controllerface/bvge/physics/PhysicsObjects.java:843-845 | the first input index from `from` on whose vertex equals v, or none exactly when there is none |
| PhysicsObjects.IndexTable | src/main/java/com/controllerface/bvge/physics/PhysicsObjects.java:836-849 | the hull-to-input table exists exactly when every hull vertex occurs in the input; then entry i is the first input index holding hull vertex i |
| PhysicsObjects.IndexTableRoundTrip | src/main/java/com/controllerface/bvge/physics/PhysicsObjects.java:836-849 | reading the input at the indices of the table gives back the hull: generate_convex_hull inverts calculate_convex_hull_table |
| PhysicsObjects.CalculateConvexHull | src/main/java/com/controllerface/bvge/physics/PhysicsObjects.java:763-823 | fewer than three points are returned as a copy; otherwise the wrap starts at the leftmost point and emits each next counter-clockwise point until it is back at the start |
| PhysicsObjects.FindLeftmost | src/main/java/com/controllerface/bvge/physics/PhysicsObjects.java:778-786 | the loop finds the first point with the smallest x |
| PhysicsObjects.GiftWrap | src/main/java/com/controllerface/bvge/physics/PhysicsObjects.java:788-822 | the do-while loop emits the wrap points from the start until the wrap closes |
| PhysicsObjects.WrapStep | src/main/java/com/controllerface/bvge/physics/PhysicsObjects.java:801-817 | one pass of the inner loop picks the next point by the orientation test |
| PhysicsObjects.CalculateConvexHullTable | src/main/java/com/controllerface/bvge/physics/PhysicsObjects.java:836-849 | maps each hull vertex to its first equal input index; for fewer than three points each entry is the first index of an equal point |
| PhysicsObjects.LookUpAll | src/main/java/com/controllerface/bvge/physics/PhysicsObjects.java:840-847 | the loop over the hull builds the index table of IndexTable |
| PhysicsObjects.FindFirst | src/main/java/com/controllerface/bvge/physics/PhysicsObjects.java:843-845 | the inner loop finds the first input index holding the vertex |
| PhysicsObjects.WrapPoints | src/main/java/com/controllerface/bvge/physics/PhysicsObjects.java:788-822 | the k-th vertex pushed is the input point the wrap stands on after k steps from the leftmost point |
| EntityLoading.BoneIdsSoFar | src/main/java/com/controllerface/bvge/physics/PhysicsObjects.java:615-619 | the entity-bone id array as the loop sees it: the first i slots hold the ids handed out so far, the rest are still 0 |
| EntityLoading.LoadEntityBones | src/main/java/com/controllerface/bvge/physics/PhysicsObjects.java:616-620 | creates one entity bone per unloaded bone, with consecutive ids; a parent offset is looked up by get_index in the ids array as it stands, so -1 stays -1 and a forward parent reads 0 |
| EntityLoading.LoadHullBones | src/main/java/com/controllerface/bvge/physics/PhysicsObjects.java:629-633 | creates one hull bone per unloaded bone, with consecutive ids, its bind id looked up in the entity-bone ids |
| EntityLoading.LoadPoints | src/main/java/com/controllerface/bvge/physics/PhysicsObjects.java:634-646 | creates one point per unloaded point, with consecutive ids, owned by the hull about to be created, its four bone slots looked up by get_index in the hull-bone ids |
| EntityLoading.LoadEdges | src/main/java/com/controllerface/bvge/physics/PhysicsObjects.java:647-650 | creates one edge per unloaded edge, with consecutive ids, its endpoints remapped through the new point ids |
| EntityLoading.LoadHull | src/main/java/com/controllerface/bvge/physics/PhysicsObjects.java:621-661 | creates the hull's bones, points and edges, then the hull itself with the make_table spans of the three id arrays and the next entity id |
| EntityLoading.LoadEntity | src/main/java/com/controllerface/bvge/physics/PhysicsObjects.java:610-668 | load_entity creates the entity bones, then each hull, then the entity whose root hull is the id given to hull `root_hull`; the records match EntityRecords and the counters advance by the numbers created |
| EntityLoading.LoadHulls | src/main/java/com/controllerface/bvge/physics/PhysicsObjects.java:621-661 | the hull loop creates the hulls in order and collects their ids |
| EntityLoading.LoadHullStep | src/main/java/com/controllerface/bvge/physics/PhysicsObjects.java:621-661 | one pass of the hull loop |
| EntityLoading.HullsNextIds | src/main/java/com/controllerface/bvge/physics/PhysicsObjects.java:621-661 | after i hulls the hull counter has gone up by i, and the entity and entity-bone counters have not moved |
| EntityLoading.EntityBoneRecordsAt | src/main/java/com/controllerface/bvge/physics/PhysicsObjects.java:616-620 | the entity-bone loop makes one record per bone, record j describing bone j |
| EntityLoading.HullBoneRecordsAt | src/main/java/com/controllerface/bvge/physics/PhysicsObjects.java:629-633 | the hull-bone loop makes one record per bone, record j describing bone j |
| EntityLoading.PointRecordsAt | src/main/java/com/controllerface/bvge/physics/PhysicsObjects.java:634-646 | the point loop makes one record per point, record j describing point j |
| EntityLoading.EdgeRecordsAt | src/main/java/com/controllerface/bvge/physics/PhysicsObjects.java:647-650 | the edge loop makes one record per edge, record j describing edge j |
| EntityLoading.EntityBoneParents | src/main/java/com/controllerface/bvge/physics/PhysicsObjects.java:616-620 | bone k gets id start + k; a parent -1 stays -1, an earlier parent becomes that bone's new id, and a parent at k or later reads the array's initial 0 |
| EntityLoading.EdgesJoinHullPoints | src/main/java/com/controllerface/bvge/physics/PhysicsObjects.java:647-650 | load_entity remaps edge endpoints through the new point ids: each edge joins the points created for its two endpoints |
| EntityLoading.PointsBelongToHull | src/main/java/com/controllerface/bvge/physics/PhysicsObjects.java:634-652 | every new point belongs to the hull being built and gets id start + j, and the hull's point table spans exactly those ids |
| EntityLoading.HullBonesBind | src/main/java/com/controllerface/bvge/physics/PhysicsObjects.java:629-633 | each hull bone is bound to the new id of the entity bone it names |
| EntityLoading.EntityRootIsItsHull | src/main/java/com/controllerface/bvge/physics/PhysicsObjects.java:663-667 | the entity is the last thing created, it gets the next entity id, and its root hull is the id of hull `root_hull` |
| StateIO.StateOutput.constructor | src/main/java/com/controllerface/bvge/game/state/AnimationState.java:216-222 | a fresh output holds the cleared values |
| StateIO.StateOutput.Clear | src/main/java/com/controllerface/bvge/game/state/AnimationState.java:216-222 | init_output: nothing jumping or attacking, budget 0 and jump amount 0 |
| StateIO.JumpEffects | src/main/java/com/controllerface/bvge/game/state/AnimationState.java:284-297 | the JUMPING state's output: jumping is set; a positive budget drops by one and pushes with the full jump magnitude while jump is held, half of it otherwise; a budget of 0 or less stays and pushes with nothing |
| AnimationStates.Ordinal | src/main/java/com/controllerface/bvge/game/state/AnimationState.java:11-26 | every state has a position in the declaration order, and the value at that position is the state |
| AnimationStates.ValuesAreDistinct | src/main/java/com/controllerface/bvge/game/state/AnimationState.java:11-26 | values() lists the fourteen states once each |
| AnimationStates.Layer | src/main/java/com/controllerface/bvge/game/state/AnimationState.java:11-33 | layer is 0 exactly for IDLE, 2 exactly for PUNCH and 1 for every other state |
| AnimationStates.FromIndex | src/main/java/com/controllerface/bvge/game/state/AnimationState.java:38-43 | an index outside [0, values().length) gives UNKNOWN; an index inside gives the state at that position |
| AnimationStates.FromIndexOfOrdinal | src/main/java/com/controllerface/bvge/game/state/AnimationState.java:38-43 | from_index inverts the ordinal |
| AnimationStates.Upper | src/main/java/com/controllerface/bvge/game/state/AnimationState.java:45-52 | toUpperCase keeps the length of the name |
| AnimationStates.ContainsIff | src/main/java/com/controllerface/bvge/game/state/AnimationState.java:45-52 | String.contains holds exactly when the needle occurs at some position of the text |
| AnimationStates.FirstContained | src/main/java/com/controllerface/bvge/game/state/AnimationState.java:48-51 | the stream filter finds a state whose name the upper-cased input contains, or none exactly when no state's name is contained |
| AnimationStates.FirstContainedIsFirst | src/main/java/com/controllerface/bvge/game/state/AnimationState.java:48-51 | the state found comes no later in the list than any other contained one |
| AnimationStates.FuzzyMatch | src/main/java/com/controllerface/bvge/game/state/AnimationState.java:45-52 | a null name gives UNKNOWN; otherwise the result is a state whose name the upper-cased input contains (the first in declaration order), or UNKNOWN when there is none |
| AnimationStates.FirstMatchIsEarliest | src/main/java/com/controllerface/bvge/game/state/AnimationState.java:48-51 | whenever some state's name is contained, a match exists and it is the earliest such state |
| AnimationStates.BlendTime | src/main/java/com/controllerface/bvge/game/state/AnimationState.java:54-213 | every blend time lies in [0, 0.5]; from UNKNOWN it is 0; a state to itself or to UNKNOWN gives the from-state's fixed value |
| AnimationStates.FixedTimeRows | src/main/java/com/controllerface/bvge/game/state/AnimationState.java:210-212 | JUMPING (0.5), RECOIL, LAND_HARD, LAND_SOFT (0.05) and UNKNOWN (0) blend in a fixed time whatever the target |
| AnimationStates.QuickIntoAction | src/main/java/com/controllerface/bvge/game/state/AnimationState.java:54-209 | blending into PUNCH or RECOIL from any state without a fixed row takes 0.1 |
| AnimationStates.Next | src/main/java/com/controllerface/bvge/game/state/AnimationState.java:226-349 | process(UNKNOWN) is UNKNOWN and nothing else leads there; RECOIL becomes JUMPING only when current_time > 0.15; JUMPING stays exactly while the budget is positive; LAND_HARD and LAND_SOFT become IDLE after 0.22 and 0.08; PUNCH is entered only with can_click |
| AnimationStates.LongRiseWins | src/main/java/com/controllerface/bvge/game/state/AnimationState.java:237-266 | from IDLE, WALKING or RUNNING, motion_state[1] > 150 wins last: SWIM_UP when wet, IN_AIR otherwise |
| AnimationStates.LandHardOnlyFromFallingFast | src/main/java/com/controllerface/bvge/game/state/AnimationState.java:269-276 | LAND_HARD is entered only from FALLING_FAST after more than 200 ticks of falling, on the ground and dry |
| AnimationStates.FallingFastLandsSoftAt200 | src/main/java/com/controllerface/bvge/game/state/AnimationState.java:269-276 | a soft landing from FALLING_FAST happens only at a fall counter of exactly 200 |
| AnimationStates.PunchHolds | src/main/java/com/controllerface/bvge/game/state/AnimationState.java:341-347 | PUNCH stays PUNCH exactly while the primary button is held and no jump is ready |
| AnimationStates.PunchStartsOnClick | src/main/java/com/controllerface/bvge/game/state/AnimationState.java:237-266 | a punch starts only from IDLE, WALKING or RUNNING, with the primary button, can_click and no jump ready |
| AnimationStates.AnimationMachine.constructor | src/main/java/com/controllerface/bvge/game/state/AnimationState.java:224 | the static state starts as UNKNOWN |
| AnimationStates.AnimationMachine.Process | src/main/java/com/controllerface/bvge/game/state/AnimationState.java:226-349 | resets the output, then returns Next and stores it in the static state; only JUMPING writes the jump effects; attack is set exactly when PUNCH stays PUNCH |
| AnimationStates.ProcessGrounded | src/main/java/com/controllerface/bvge/game/state/AnimationState.java:237-266 | the IDLE, WALKING and RUNNING branches: later rules override earlier ones |
| AnimationStates.ProcessAirborne | src/main/java/com/controllerface/bvge/game/state/AnimationState.java:269-339 | the falling, in-air and swimming branches, which ignore the player's buttons |
| MovementStates.FromAnimation | src/main/java/com/controllerface/bvge/game/state/MovementState.java:10-31 | each of the twelve movement states is tied to the animation of the same name, and every animation but PUNCH and UNKNOWN has one |
| MovementStates.AnimationIsInjective | src/main/java/com/controllerface/bvge/game/state/MovementState.java:10-31 | no two movement states share an animation |
| MovementStates.Next | src/main/java/com/controllerface/bvge/game/state/MovementState.java:41-292 | the movement rules are the animation rules with the punch rules removed: the next movement state plays the animation the animation machine picks when clicking is off |
| MovementStates.RecoilTimesOut | src/main/java/com/controllerface/bvge/game/state/MovementState.java:163-170 | RECOIL becomes JUMPING exactly when current_time > 0.15 and otherwise stays RECOIL |
| MovementStates.LandingsTimeOut | src/main/java/com/controllerface/bvge/game/state/MovementState.java:211-250 | LAND_HARD becomes IDLE exactly after 0.22 and LAND_SOFT exactly after 0.08 |
| MovementStates.JumpEndsWithBudget | src/main/java/com/controllerface/bvge/game/state/MovementState.java:172-192 | JUMPING stays JUMPING while the budget is positive; a zero budget leaves it for SWIM_UP when wet, IN_AIR otherwise |
| MovementStates.IdleLongRiseWins | src/main/java/com/controllerface/bvge/game/state/MovementState.java:51-76 | from IDLE, motion_state[1] > 150 wins over every earlier rule |
| MovementStates.IdleFollowsKeys | src/main/java/com/controllerface/bvge/game/state/MovementState.java:51-76 | from IDLE with no fall, rise or jump trigger, the state follows the keys: RUNNING or WALKING while moving, IDLE otherwise |
| MovementStates.Process | src/main/java/com/controllerface/bvge/game/state/MovementState.java:33-292 | resets the output before branching (jumping false, attack false, budget 0, amount 0), returns Next, and only the JUMPING branch writes the jump effects |
| MovementStates.GroundedOverrides | src/main/java/com/controllerface/bvge/game/state/MovementState.java:51-134 | the jump, fall and rise rules shared by IDLE, WALKING and RUNNING, each overriding the ones before |
| MovementStates.ProcessAirborne | src/main/java/com/controllerface/bvge/game/state/MovementState.java:136-290 | the falling, in-air and swimming branches, which ignore the player's buttons |
| MovementStates.BlendTime | src/main/java/com/controllerface/bvge/game/state/MovementState.java:294-426 | the movement blend table agrees entry by entry with the animation blend table |
| MovementStates.SelfBlendTimes | src/main/java/com/controllerface/bvge/game/state/MovementState.java:294-426 | blend_time(s, s) is 0 for every state except JUMPING (0.5) and RECOIL, LAND_HARD, LAND_SOFT (0.05) |
| PlayerStates.BaseProcess | src/main/java/com/controllerface/bvge/game/state/PlayerState.java:24-40 | reference definition of BaseState.process: always IDLE |
| PlayerStates.ActionProcess | src/main/java/com/controllerface/bvge/game/state/PlayerState.java:173-196 | reference definition of ActionState.process: IDLE becomes PUNCH exactly when the primary button is pressed and can_click holds; PUNCH stays PUNCH exactly while the button is pressed |
| PlayerStates.ReleaseIdles | src/main/java/com/controllerface/bvge/game/state/PlayerState.java:185-193 | releasing the primary button always gives IDLE |
| PlayerStates.HeldPunchIgnoresClickAbility | src/main/java/com/controllerface/bvge/game/state/PlayerState.java:191-193 | a held punch continues whether or not clicking is allowed |
| PlayerStates.PunchIffStartedAndHeld | src/main/java/com/controllerface/bvge/game/state/PlayerState.java:173-196 | over any run of frames from IDLE, the player is punching exactly when a punch started at some frame (button down with can_click) and the button has been held in every frame since |
| MovementStates.Animation | src/main/java/com/controllerface/bvge/game/state/MovementState.java:10-31 | every movement state names an animation, never PUNCH or UNKNOWN |
| PlayerControl.Position | src/main/java/com/controllerface/bvge/physics/PlayerController.java:128-158 | each control flag's binding has a place in the order the bindings are visited |
| PlayerControl.FlagForAt | src/main/java/com/controllerface/bvge/physics/PlayerController.java:133-157 | the flags a held binding adds are exactly the raised flags whose binding sits at that place |
| PlayerControl.ControlFlags | src/main/java/com/controllerface/bvge/physics/PlayerController.java:126-158 | the loop ORs in one flag per held binding: a flag is set exactly when its binding is held, and MOUSE1 only when the primary button is not withheld (block cursor active, or an unlatch awaited while the mouse is latched) |
| PlayerControl.FlagPlayerPressed | src/main/java/com/controllerface/bvge/physics/PlayerController.java:445-452 | the bindings the handlers read from the flags are exactly the raised flags |
| PlayerControl.Outcome | src/main/java/com/controllerface/bvge/physics/PlayerController.java:265-275 | a handler's output: the chosen next state; acceleration exactly in JUMPING; attack exactly when PUNCH stays PUNCH; outside JUMPING no budget and no jump amount |
| PlayerControl.FlagNextIsAnimationNext | src/main/java/com/controllerface/bvge/physics/PlayerController.java:303-425 | every handler but in_air_state follows the animation machine's rule with clicking always allowed |
| PlayerControl.InAirSinksSooner | src/main/java/com/controllerface/bvge/physics/PlayerController.java:373-381 | in_air_state departs from the animation machine exactly when the fall counter is in (50, 100] and no landing to FALLING_SLOW applies: it starts to sink after 50 ticks, not 100 |
| PlayerControl.JumpingSpendsBudget | src/main/java/com/controllerface/bvge/physics/PlayerController.java:357-371 | jumping_state decrements a positive budget by one and stays JUMPING; a budget of 0 goes to SWIM_UP when wet, IN_AIR otherwise |
| PlayerControl.IdlePunchesOnLiveButton | src/main/java/com/controllerface/bvge/physics/PlayerController.java:277-301 | idle_state punches whenever the live primary button is down and no jump, fall or rise rule overrides, whatever the withheld MOUSE1 flag says |
| PlayerControl.WalkingState | src/main/java/com/controllerface/bvge/physics/PlayerController.java:303-313 | walking_state's output |
| PlayerControl.RunningState | src/main/java/com/controllerface/bvge/physics/PlayerController.java:315-325 | running_state's output |
| PlayerControl.FallingSlowState | src/main/java/com/controllerface/bvge/physics/PlayerController.java:327-336 | falling_slow_state's output |
| PlayerControl.FallingFastState | src/main/java/com/controllerface/bvge/physics/PlayerController.java:338-348 | falling_fast_state's output |
| PlayerControl.RecoilState | src/main/java/com/controllerface/bvge/physics/PlayerController.java:350-355 | recoil_state's output |
| PlayerControl.JumpingState | src/main/java/com/controllerface/bvge/physics/PlayerController.java:357-371 | jumping_state's output |
| PlayerControl.InAirState | src/main/java/com/controllerface/bvge/physics/PlayerController.java:373-381 | in_air_state's output |
| PlayerControl.SwimUpState | src/main/java/com/controllerface/bvge/physics/PlayerController.java:383-391 | swim_up_state's output |
| PlayerControl.SwimDownState | src/main/java/com/controllerface/bvge/physics/PlayerController.java:393-402 | swim_down_state's output |
| PlayerControl.LandSoftState | src/main/java/com/controllerface/bvge/physics/PlayerController.java:404-409 | land_soft_state's output |
| PlayerControl.LandHardState | src/main/java/com/controllerface/bvge/physics/PlayerController.java:411-416 | land_hard_state's output |
| PlayerControl.PunchState | src/main/java/com/controllerface/bvge/physics/PlayerController.java:418-425 | punch_state's output: attack is set exactly when the next state is PUNCH |
| PlayerControl.BitsAreEntityFlags | src/main/java/com/controllerface/bvge/physics/PlayerController.java:579-591 | the CAN_JUMP, FACE_LEFT, IS_WET, ATTACKING and CAN_COLLECT bits the controller tests and sets are those of the entity flag enum |
| PlayerControl.MotionCounter | src/main/java/com/controllerface/bvge/physics/PlayerController.java:539-553 | a motion counter goes up by one while moving that way (as a Java short) and resets to 0 otherwise, and is capped at 1000 |
| PlayerControl.MotionCounterInRange | src/main/java/com/controllerface/bvge/physics/PlayerController.java:539-553 | a counter in [0, 1000] stays in [0, 1000] |
| PlayerControl.SetBitFacts | src/main/java/com/controllerface/bvge/physics/PlayerController.java:579-591 | setting or clearing one bit changes only that bit |
| PlayerControl.ArmFlagsBits | src/main/java/com/controllerface/bvge/physics/PlayerController.java:579-591 | FACE_LEFT changes only when exactly one of left and right is held; ATTACKING equals attack and CAN_COLLECT equals the secondary click; every other bit is kept |
| PlayerControl.AccelX | src/main/java/com/controllerface/bvge/physics/PlayerController.java:557-567 | the horizontal acceleration points to the one held side, is zero with neither held, and is kept with both |
| PlayerControl.PlayerController.constructor | src/main/java/com/controllerface/bvge/physics/PlayerController.java:53-106 | the budget starts at 0, no block is selected, the mouse is unlatched and nothing has been placed |
| PlayerControl.PlayerController.SelectBlock | src/main/java/com/controllerface/bvge/physics/PlayerController.java:118-224 | selects a block kind for the cursor, changing nothing else |
| PlayerControl.PlayerController.HandleInputStates | src/main/java/com/controllerface/bvge/physics/PlayerController.java:118-224 | returns the control flags; with the primary button up, the mouse is unlatched and no unlatch is required; a held button with no fresh click keeps both latch flags, the inventory and the cursor; a fresh click with the cursor active latches the mouse, places a block and subtracts 4 only when the count is at least 4, and when fewer than 4 remain deactivates the cursor and requires an unlatch, otherwise leaving the cursor and the unlatch flag as they were |
| PlayerControl.PlayerController.IdleState | src/main/java/com/controllerface/bvge/physics/PlayerController.java:277-301 | idle_state reads left, right, primary and jump from the live input and the budget from the field |
| PlayerControl.PlayerController.RunHandler | src/main/java/com/controllerface/bvge/physics/PlayerController.java:482-498 | dispatches on the state stored in the animation index; an index outside the enum is UNKNOWN and its output is the empty OutputData(UNKNOWN) |
| PlayerControl.PlayerController.NewWay | src/main/java/com/controllerface/bvge/physics/PlayerController.java:430-600 | resets the budget to 10 when able to jump and jump is not held, runs the handler, takes the handler's budget only when it accelerates, and writes back the entity's timing, acceleration, motion counters and flag bits |
| PlayerControl.WriteBack | src/main/java/com/controllerface/bvge/physics/PlayerController.java:500-591 | the entity record written back: timing and blend (StateChangeBlends, SameStateKeepsTiming), acceleration (AccelX), motion counters (MotionCounter) and flag bits (ArmFlagsBits) |
| PlayerControl.Accelerate | src/main/java/com/controllerface/bvge/physics/PlayerController.java:557-575 | the horizontal acceleration follows AccelX; the vertical one is set only while wet and pressing up or down |
| PlayerControl.SetFlags | src/main/java/com/controllerface/bvge/physics/PlayerController.java:579-591 | the arm flags follow ArmFlags: FACE_LEFT, ATTACKING and CAN_COLLECT updated, all other bits kept (ArmFlagsBits) |
| PlayerControl.BudgetResetsOnGround | src/main/java/com/controllerface/bvge/physics/PlayerController.java:462-530 | able to jump and not pressing jump, the budget is back at 10 after the tick (9 when the state is JUMPING, which spends one) |
| PlayerControl.StateChangeBlends | src/main/java/com/controllerface/bvge/physics/PlayerController.java:502-520 | on a state change the old time and index move to slot 1, the blend is blend_time(old, new) and the new state's time starts at 0 |
| PlayerControl.SameStateKeepsTiming | src/main/java/com/controllerface/bvge/physics/PlayerController.java:502-520 | without a state change the timing and blend are kept |
| PlayerControl.OutOfRangeIndexBecomesUnknown | src/main/java/com/controllerface/bvge/physics/PlayerController.java:481-520 | an animation index outside the enum is read as UNKNOWN and written back as UNKNOWN's ordinal 13 |
| AnimationSettings.GetTransition | src/main/java/com/controllerface/bvge/game/AnimationSettings.java:12-156 | every transition time agrees with the animation state's own blend time table, lies in [0, 0.5] and is a whole number of hundredths |
| AnimationSettings.DefineTransitions | src/main/java/com/controllerface/bvge/game/AnimationSettings.java:158-171 | the nested map holds an entry for every (from, to) pair of states |
| AnimationSettings.TransitionsFrom | src/main/java/com/controllerface/bvge/game/AnimationSettings.java:161-168 | the inner map holds every target state with its transition time |
| AnimationSettings.FloatText | src/main/java/com/controllerface/bvge/game/AnimationSettings.java:203-205 | a transition time prints as "0." followed by one or two digits, no trailing zero in the second, and the digits read back as the value |
| AnimationSettings.RowTimes | src/main/java/com/controllerface/bvge/game/AnimationSettings.java:202-209 | one printed time per animation state |
| AnimationSettings.NextCell | src/main/java/com/controllerface/bvge/game/AnimationSettings.java:202-209 | appending a cell, with ", " after every state but UNKNOWN, extends the row by exactly that cell |
| AnimationSettings.NextRow | src/main/java/com/controllerface/bvge/game/AnimationSettings.java:199-216 | appending a row extends the table text by that row |
| AnimationSettings.HeaderIsSquare | src/main/java/com/controllerface/bvge/game/AnimationSettings.java:194-198 | the header declares a 14 by 14 table |
| AnimationSettings.SeparatedPrefix | src/main/java/com/controllerface/bvge/game/AnimationSettings.java:202-209 | after n cells the row text is the first n cells joined by ", ", plus a trailing separator when cells remain |
| AnimationSettings.SeparatedIsJoin | src/main/java/com/controllerface/bvge/game/AnimationSettings.java:202-209 | a complete row is its cells joined by ", " with no trailing separator |
| AnimationSettings.RowCellsAreJoined | src/main/java/com/controllerface/bvge/game/AnimationSettings.java:201-211 | a row body is "\t{", the joined times and "}" |
| AnimationSettings.RowBodies | src/main/java/com/controllerface/bvge/game/AnimationSettings.java:199-216 | one row body per animation state |
| AnimationSettings.RowsAreSeparated | src/main/java/com/controllerface/bvge/game/AnimationSettings.java:199-216 | the first n rows are the row bodies separated by ",\n" |
| AnimationSettings.RowWithComma | src/main/java/com/controllerface/bvge/game/AnimationSettings.java:212-216 | every row but UNKNOWN's ends with ",\n" |
| AnimationSettings.RowsAreJoined | src/main/java/com/controllerface/bvge/game/AnimationSettings.java:199-216 | all rows are the row bodies joined by ",\n" and a final newline |
| AnimationSettings.SeparatedAvoids | src/main/java/com/controllerface/bvge/game/AnimationSettings.java:202-209 | joining texts that lack a character with a separator that lacks it gives a text that lacks it |
| AnimationSettings.TimesHaveNoNewline | src/main/java/com/controllerface/bvge/game/AnimationSettings.java:203-205 | no printed time holds a newline |
| AnimationSettings.RowBodyHasNoNewline | src/main/java/com/controllerface/bvge/game/AnimationSettings.java:201-211 | no row body holds a newline |
| AnimationSettings.RowIsOneLine | src/main/java/com/controllerface/bvge/game/AnimationSettings.java:199-216 | each state's row is exactly one line of the table |
| AnimationSettings.TransitionTable.constructor | src/main/java/com/controllerface/bvge/game/AnimationSettings.java:8-10 | the cached lookup table starts empty and the transitions are complete |
| AnimationSettings.TransitionTable.ClLookupTable | src/main/java/com/controllerface/bvge/game/AnimationSettings.java:190-222 | returns the table text and caches it; once cached, later calls return the cached text unchanged |
| AnimationSettings.TransitionTable.BuildTable | src/main/java/com/controllerface/bvge/game/AnimationSettings.java:194-219 | the text built equals the header, the 14 rows and the closing "};" |
| AnimationSettings.TransitionTable.CellText | src/main/java/com/controllerface/bvge/game/AnimationSettings.java:203-209 | one cell: the time, "f", and ", " unless the target is UNKNOWN |
| AnimationSettings.TransitionTable.RowCells | src/main/java/com/controllerface/bvge/game/AnimationSettings.java:202-209 | the cells of one row, separated by ", " |
| AnimationSettings.TransitionTable.RowText | src/main/java/com/controllerface/bvge/game/AnimationSettings.java:199-216 | one row: the cells in braces, "," unless the state is UNKNOWN, and a newline |
| StaticAssets.LastIndexOf | src/main/java/com/controllerface/bvge/editor/StaticAsset.java:53 | the last position of the character, with no later occurrence; none exactly when it does not occur |
| StaticAssets.DetermineMimeType | src/main/java/com/controllerface/bvge/editor/StaticAsset.java:51-65 | a location without a dot is rejected with "Filename must have extension"; a success is one of the known MIME types |
| StaticAssets.LastDotBeforeExtension | src/main/java/com/controllerface/bvge/editor/StaticAsset.java:53-58 | for base + "." + extension with no dot in the extension, the last dot is the one before the extension |
| StaticAssets.MimeTypeOfExtension | src/main/java/com/controllerface/bvge/editor/StaticAsset.java:51-65 | the MIME type is looked up by the text after the last dot; an unknown one is rejected with "Unknown extension: " and the extension |
| StaticAssets.MimeTypeAt | src/main/java/com/controllerface/bvge/editor/StaticAsset.java:53-64 | the same lookup stated at the position of the last dot |
| StaticAssets.Make | src/main/java/com/controllerface/bvge/editor/StaticAsset.java:41-49 | an asset is made exactly when its MIME type is determined, and carries its location and that type |
| StaticAssets.Put | src/main/java/com/controllerface/bvge/editor/StaticAsset.java:126-131 | adding a made asset keeps the map made and adds its key; a failure propagates |
| StaticAssets.MakeStaticAssets | src/main/java/com/controllerface/bvge/editor/StaticAsset.java:124-134 | the map's keys are the four registered URIs and every entry is made from its own location |
| StaticAssets.EditorHtmlIsKnown | src/main/java/com/controllerface/bvge/editor/StaticAsset.java:128 | "/" serves /ui/html/editor.html as text/html |
| StaticAssets.StatsHtmlIsKnown | src/main/java/com/controllerface/bvge/editor/StaticAsset.java:129 | "/stats.html" serves /ui/html/stats.html as text/html |
| StaticAssets.EditorJsIsKnown | src/main/java/com/controllerface/bvge/editor/StaticAsset.java:130 | "/editor.js" serves /ui/js/editor.js as text/javascript |
| StaticAssets.EditorCssIsKnown | src/main/java/com/controllerface/bvge/editor/StaticAsset.java:131 | "/editor.css" serves /ui/css/editor.css as text/css |
| StaticAssets.StaticAssetsAreMade | src/main/java/com/controllerface/bvge/editor/StaticAsset.java:124-134 | the static initialiser never throws |
| StaticAssets.IsAssetIsContainsKey | src/main/java/com/controllerface/bvge/editor/StaticAsset.java:141-144 | is_asset holds exactly for the keys of static_assets |
| StaticAssets.AssetFor | src/main/java/com/controllerface/bvge/editor/StaticAsset.java:146-150 | a served asset is one made from its own location, with a known MIME type |
| StaticAssets.IntBytes | src/main/java/com/controllerface/bvge/editor/StaticAsset.java:67-94 | int_bytes gives 1, 2, 3 or 4 bytes for values below 0x80, 0x800, 0x10000 and beyond |
| StaticAssets.IntBytesContinuation | src/main/java/com/controllerface/bvge/editor/StaticAsset.java:76-92 | every byte after the first is a UTF-8 continuation byte (10xxxxxx) |
| StaticAssets.LeadByteValue | src/main/java/com/controllerface/bvge/editor/StaticAsset.java:75-88 | the lead byte carries the marker and the high bits of the value |
| StaticAssets.IntBytesLead | src/main/java/com/controllerface/bvge/editor/StaticAsset.java:69-88 | the lead byte has the UTF-8 lead pattern for its length |
| StaticAssets.IntBytesLeadOverflow | src/main/java/com/controllerface/bvge/editor/StaticAsset.java:86-88 | from 0x200000 on, the high bits spill past the four-byte marker (no longer a valid UTF-8 lead byte when they reach bit 3) |
| StaticAssets.DecodeTwo | src/main/java/com/controllerface/bvge/editor/StaticAsset.java:73-78 | two bytes decode back to the value |
| StaticAssets.DecodeThree | src/main/java/com/controllerface/bvge/editor/StaticAsset.java:79-85 | three bytes decode back to the value |
| StaticAssets.DecodeFour | src/main/java/com/controllerface/bvge/editor/StaticAsset.java:86-93 | four bytes decode back to the value below 0x200000 |
| StaticAssets.IntBytesDecode | src/main/java/com/controllerface/bvge/editor/StaticAsset.java:67-94 | int_bytes is the UTF-8 encoding of its argument as a code point: decoding gives the value back for every value below 0x200000 |
| StaticAssetResponses.LengthFieldOfResponse | src/main/java/com/controllerface/bvge/editor/StaticAsset.java:104-114 | the Content-Length value can be read back out of the response bytes |
| StaticAssetResponses.WriteResourceResponse | src/main/java/com/controllerface/bvge/editor/StaticAsset.java:96-122 | a missing resource writes nothing; otherwise the response is the status line, Content-Type with charset, Content-Length as int_bytes of the length, a blank line and the data |
| StaticAssetResponses.WrittenContentLengthIsNotDecimal | src/main/java/com/controllerface/bvge/editor/StaticAsset.java:111 | the Content-Length value written is never the decimal text of the length |
| StaticAssetResponses.NineByteBodyIsAnnouncedAsTab | src/main/java/com/controllerface/bvge/editor/StaticAsset.java:111 | a nine-byte body is announced by a single TAB byte |
| StaticAssetResponses.IntendedContentLengthReadsBack | src/main/java/com/controllerface/bvge/editor/StaticAsset.java:110-111 | with the decimal field, the Content-Length value parses back to the body length |
| StaticAssetResponses.IntBytesAreNotDecimal | src/main/java/com/controllerface/bvge/editor/StaticAsset.java:67-94 | for every length below 2^31 the int_bytes pattern differs from the ASCII decimal digits of the length |
| EditorRequests.SplitTokens | src/main/java/com/controllerface/bvge/editor/EditorServer.java:171-177 | a split request line has verb and URI without spaces, and joining the three tokens with spaces gives the text back |
| EditorRequests.SplitRequestLine | src/main/java/com/controllerface/bvge/editor/EditorServer.java:171-177 | the trimmed raw line is exactly verb, URI and version joined by spaces |
| EditorRequests.SplitRequestLineNeedsTwoSpaces | src/main/java/com/controllerface/bvge/editor/EditorServer.java:171-176 | the line splits into three tokens exactly when the trimmed text holds two spaces |
| EditorRequests.SplitOfLineText | src/main/java/com/controllerface/bvge/editor/EditorServer.java:167-177 | a well-formed request line, padded with blanks and line ending, splits back into itself |
| EditorRequests.SplitTokensOfLineText | src/main/java/com/controllerface/bvge/editor/EditorServer.java:171-177 | joining then splitting a request line gives it back |
| EditorRequests.SplitHeader | src/main/java/com/controllerface/bvge/editor/EditorServer.java:181-187 | a header splits exactly when the line holds a colon; the name holds no colon and both parts are trimmed |
| EditorRequests.SplitOfHeaderText | src/main/java/com/controllerface/bvge/editor/EditorServer.java:181-187 | a well-formed header, followed by blanks, splits back into itself |
| EditorRequests.Step | src/main/java/com/controllerface/bvge/editor/EditorServer.java:156-189 | one byte read keeps the reader well formed: a four-byte window and its status |
| EditorRequests.Run | src/main/java/com/controllerface/bvge/editor/EditorServer.java:156-190 | reading a byte sequence keeps the reader well formed |
| EditorRequests.ReadRequest | src/main/java/com/controllerface/bvge/editor/EditorServer.java:146-200 | the loop's outcome over the input is Parse of the input |
| EditorRequests.ShiftIn | src/main/java/com/controllerface/bvge/editor/EditorServer.java:159-162 | the end-of-message window shifts left by one and takes the new byte last |
| EditorRequests.RunFirst | src/main/java/com/controllerface/bvge/editor/EditorServer.java:156 | reading stops only at end of input, end of message or an error: a reading reader takes the next byte |
| EditorRequests.RunConcat | src/main/java/com/controllerface/bvge/editor/EditorServer.java:156-190 | reading a + b is reading a and then b |
| EditorRequests.RunStopped | src/main/java/com/controllerface/bvge/editor/EditorServer.java:156 | a reader that stopped reads no more |
| EditorRequests.ParseIgnoresRest | src/main/java/com/controllerface/bvge/editor/EditorServer.java:156-197 | once the message ends or fails, bytes after it do not change the outcome |
| EditorRequests.FeedOne | src/main/java/com/controllerface/bvge/editor/EditorServer.java:158-165 | a byte that is not LF only extends the window and the pending text |
| EditorRequests.FeedWithoutLf | src/main/java/com/controllerface/bvge/editor/EditorServer.java:158-165 | bytes without LF only extend the window and the pending text |
| EditorRequests.StepPlain | src/main/java/com/controllerface/bvge/editor/EditorServer.java:158-165 | one byte without LF ends no line |
| EditorRequests.ReadLine | src/main/java/com/controllerface/bvge/editor/EditorServer.java:164-168 | a line ended by CR LF is handed over as one text and the pending text is cleared |
| EditorRequests.StepEndsLine | src/main/java/com/controllerface/bvge/editor/EditorServer.java:163-168 | the LF after a CR ends a line that is not the end of the message |
| EditorRequests.ReadBlankLine | src/main/java/com/controllerface/bvge/editor/EditorServer.java:163 | a blank line after a line ending is the end of the message |
| EditorRequests.NoLfInAscii | src/main/java/com/controllerface/bvge/editor/EditorServer.java:164 | a line's text holds no LF byte |
| EditorRequests.TextOfLine | src/main/java/com/controllerface/bvge/editor/EditorServer.java:167 | decoding the line's bytes gives its text and CR LF |
| EditorRequests.ReadTextLine | src/main/java/com/controllerface/bvge/editor/EditorServer.java:164-168 | a line of text followed by CR LF is handed over whole |
| EditorRequests.WindowAfterLine | src/main/java/com/controllerface/bvge/editor/EditorServer.java:159-164 | after a line ending the window ends in CR LF |
| EditorRequests.HandleOfRequestLine | src/main/java/com/controllerface/bvge/editor/EditorServer.java:169-177 | the first line sets the request line |
| EditorRequests.HandleOfHeader | src/main/java/com/controllerface/bvge/editor/EditorServer.java:179-188 | a later line appends its header |
| EditorRequests.ReadHeaderLine | src/main/java/com/controllerface/bvge/editor/EditorServer.java:156-189 | reading a header line appends that header and leaves the reader ready for the next line |
| EditorRequests.ReadHeaders | src/main/java/com/controllerface/bvge/editor/EditorServer.java:156-190 | reading header lines and the blank line appends all the headers in order and ends the message |
| EditorRequests.ReadRequestLine | src/main/java/com/controllerface/bvge/editor/EditorServer.java:156-189 | reading the request line sets it, with no headers yet |
| EditorRequests.HandleOfLineWithoutColon | src/main/java/com/controllerface/bvge/editor/EditorServer.java:181-187 | a header line without a colon makes tokens[1] throw |
| EditorRequests.ParseOfRequestBytes | src/main/java/com/controllerface/bvge/editor/EditorServer.java:146-198 | a well-formed request's bytes parse back to that request line and those headers, whatever follows |
| EditorRequests.ParseOfBadRequestLine | src/main/java/com/controllerface/bvge/editor/EditorServer.java:171-199 | a first line that does not split into three tokens is an invalid request (null) |
| EditorRequests.ParseOfHeaderWithoutColon | src/main/java/com/controllerface/bvge/editor/EditorServer.java:181-187 | a header without a colon ends the read with an exception |
| EditorRequests.ParseOfUnterminatedRequest | src/main/java/com/controllerface/bvge/editor/EditorServer.java:156-197 | input that ends before the blank line still returns the request read so far |
| EditorRouting.MatchesIgnoresCase | src/main/java/com/controllerface/bvge/editor/EditorServer.java:54-57 | an endpoint method matches a verb regardless of the verb's case |
| EditorRouting.MatchesExamples | src/main/java/com/controllerface/bvge/editor/EditorServer.java:48-57 | GET matches "get", "Get" and "GET" but not "POST"; ANY matches only the word "any" in some case, so it does not match "GET" |
| EditorRouting.FirstMatch | src/main/java/com/controllerface/bvge/editor/EditorServer.java:101-104 | findFirst: the first endpoint accepting the request, none of those before it accepting, or none at all |
| EditorRouting.RouteIs | src/main/java/com/controllerface/bvge/editor/EditorServer.java:60-106 | GET /events goes to the event source, a GET of a registered asset to the static asset handler, anything else to NOT_FOUND |
| EditorRouting.RouteCases | src/main/java/com/controllerface/bvge/editor/EditorServer.java:99-106 | each of the three endpoints is chosen exactly under its condition |
| EditorRouting.IsSse | src/main/java/com/controllerface/bvge/editor/EditorServer.java:130-132 | the request is an event-stream request exactly when some header named Accept, in any case, has the value text/event-stream |
| EditorRouting.HandleRequestCases | src/main/java/com/controllerface/bvge/editor/EditorServer.java:128-217 | a missing request closes the connection; GET /events with an event-stream Accept opens a stream; a GET of an asset serves that asset; the rest answers 404 |
| EditorRouting.ClientActionOfRequestBytes | src/main/java/com/controllerface/bvge/editor/EditorServer.java:202-207 | the bytes of a well-formed request are handled as that request |
| EditorRouting.EventStreamRequestOpensStream | src/main/java/com/controllerface/bvge/editor/EditorServer.java:128-139 | a well-formed GET /events with Accept: text/event-stream opens a stream |
| EditorRouting.EventSourceWithoutSseIs404 | src/main/java/com/controllerface/bvge/editor/EditorServer.java:140-143 | GET /events without an event-stream header answers 404 |
| EditorRouting.NotFoundLengthIsBodyLength | src/main/java/com/controllerface/bvge/editor/EditorServer.java:31-36 | the 404 response ends in the body "Not Found", 9 bytes long, as its Content-Length says |
| EditorRouting.RemoveFirst | src/main/java/com/controllerface/bvge/editor/EditorServer.java:267-270 | List.remove takes out one occurrence of the stream, or nothing when it is absent |
| EditorRouting.AddThenEnd | src/main/java/com/controllerface/bvge/editor/EditorServer.java:262-270 | adding a stream and then ending it restores the list |
| EditorRouting.LastValue | src/main/java/com/controllerface/bvge/editor/EditorServer.java:257-260 | the latest value queued under a name, or none when no event names it |
| EditorRouting.LatestValueWins | src/main/java/com/controllerface/bvge/editor/EditorServer.java:247-260 | after a run of queued stat events each name maps to its latest value, and names never queued keep their old entries |
| EditorRouting.Server.constructor | src/main/java/com/controllerface/bvge/editor/EditorServer.java:38-40 | no streams and no stat events |
| EditorRouting.Server.QueueStatEvent | src/main/java/com/controllerface/bvge/editor/EditorServer.java:257-260 | the stat event table maps the name to the new value, other entries unchanged |
| EditorRouting.Server.AddStream | src/main/java/com/controllerface/bvge/editor/EditorServer.java:262-265 | the stream is appended |
| EditorRouting.Server.EndStream | src/main/java/com/controllerface/bvge/editor/EditorServer.java:267-270 | one occurrence of the stream is removed |
| EditorRouting.Server.ProcessClient | src/main/java/com/controllerface/bvge/editor/EditorServer.java:202-217 | the action taken is the one the request read from the input calls for, and the stream list grows by the new stream exactly when a stream is opened |
| GPUDevice.CodeIndex | src/main/java/com/controllerface/bvge/gpu/GPU.java:654-689 | the position of the first table entry with the code, or the table length when none has it |
| GPUDevice.Label | src/main/java/com/controllerface/bvge/gpu/GPU.java:654-689 | a switch over codes: the name of a listed code, and the code itself, marked unknown, exactly when none is listed |
| GPUDevice.LabelIndex | src/main/java/com/controllerface/bvge/gpu/GPU.java:654-689 | the position of the first entry with the name, or the table length |
| GPUDevice.LabelRoundTrip | src/main/java/com/controllerface/bvge/gpu/GPU.java:654-689 | with distinct names, the code can be recovered from its label |
| GPUDevice.NamesAreDistinct | src/main/java/com/controllerface/bvge/gpu/GPU.java:654-689 | the three switches give every code a different name |
| GPUDevice.DebugLabelsAreInjective | src/main/java/com/controllerface/bvge/gpu/GPU.java:652-689 | get_debug_source, get_debug_type and get_debug_severity map different codes to different labels |
| GPUDevice.DebugSourceCodes | src/main/java/com/controllerface/bvge/gpu/GPU.java:652-663 | the known sources are exactly 33350-33355; 33350 is "API" |
| GPUDevice.DebugTypeCodes | src/main/java/com/controllerface/bvge/gpu/GPU.java:665-677 | the known types are exactly 33356-33361 and 33384; 33384 is "MARKER" |
| GPUDevice.DebugSeverityCodes | src/main/java/com/controllerface/bvge/gpu/GPU.java:679-689 | the known severities are exactly 33387 and 37190-37192; 37190 is "HIGH" |
| GPUDevice.PreferredWorkSize | src/main/java/com/controllerface/bvge/gpu/GPU.java:887-891 | the AMD wavefront width when reported, else the NVIDIA warp width when reported, else 32; never the "not reported" value -1 |
| GPUDevice.FitWorkGroup | src/main/java/com/controllerface/bvge/gpu/GPU.java:895-944 | the work group size is the first halving of the maximum whose scan buffers (an int2 and an int4 per element of a block twice the group) fit below the local memory; the block is twice the group |
| GPUDevice.FittedFits | src/main/java/com/controllerface/bvge/gpu/GPU.java:934-941 | the fitted group size fits |
| GPUDevice.HalfOfQuotient | src/main/java/com/controllerface/bvge/gpu/GPU.java:936 | halving a quotient by g / p once more is dividing g by 2p, so k halvings divide by 2^k |
| GPUDevice.FirstFitFrom | src/main/java/com/controllerface/bvge/gpu/GPU.java:934-941 | searching on from a halving with no fit before it ends at the first fitting halving |
| GPUDevice.FittedIsFirstFittingHalving | src/main/java/com/controllerface/bvge/gpu/GPU.java:934-941 | the fitted group size is the first halving of the maximum that fits, and no earlier halving fits |
| GPUDevice.NoHalvingFitsWithoutLocalMemory | src/main/java/com/controllerface/bvge/gpu/GPU.java:934-941 | with a local memory size of 0 or less no halving ever fits, and halving 0 gives 0 again, so the loop never ends |
| KernelSource.ConcatAppend | src/main/java/com/controllerface/bvge/gpu/GPU.java:1453-1476 | appending pieces to a builder in two runs gives the two texts joined |
| KernelSource.Append | src/main/java/com/controllerface/bvge/gpu/GPU.java:1453-1476 | StringBuilder.append: the text is the pieces so far plus the new piece |
| KernelSource.PieceOccurs | src/main/java/com/controllerface/bvge/gpu/GPU.java:1453-1476 | each appended piece occurs in the built text at the length of the pieces before it |
| KernelSource.TargetIndex | src/main/java/com/controllerface/bvge/gpu/GPU.java:1448-1452 | the ordinal of the first argument named "target", or none when no argument has that name |
| KernelSource.StoreLines | src/main/java/com/controllerface/bvge/gpu/GPU.java:1464-1474 | one store line per argument before the target |
| KernelSource.StoreLinesNext | src/main/java/com/controllerface/bvge/gpu/GPU.java:1464-1474 | the loop's next iteration appends the store of argument k from argument k + target + 1 |
| KernelSource.StoreLineAt | src/main/java/com/controllerface/bvge/gpu/GPU.java:1464-1474 | store line i writes argument i at [target] from argument i + target + 1 |
| KernelSource.AppendStore | src/main/java/com/controllerface/bvge/gpu/GPU.java:1466-1473 | one loop iteration appends exactly that store line |
| KernelSource.GenerateCreateKernel | src/main/java/com/controllerface/bvge/gpu/GPU.java:1440-1477 | crud_create_k_src builds exactly the create kernel text, or fails when there is no target or too few arguments after it |
| KernelSource.CreateKernelNeedsTarget | src/main/java/com/controllerface/bvge/gpu/GPU.java:1448-1452 | generation fails for lack of a target exactly when no argument is named "target" (orElseThrow) |
| KernelSource.CreateKernelNeedsValues | src/main/java/com/controllerface/bvge/gpu/GPU.java:1464-1468 | with the target at ordinal t, generation succeeds exactly when there are more than 2t arguments, so every value index t + 1 + i exists |
| KernelSource.CreateKernelStores | src/main/java/com/controllerface/bvge/gpu/GPU.java:1453-1476 | the create kernel is its header, "{", one store line per argument before the target (argument i from argument i + t + 1) and the closing brace |
| KernelSource.LocalTypeIsNotAPointer | src/main/java/com/controllerface/bvge/gpu/GPU.java:1506-1509 | the local variable type has no "*" |
| KernelSource.StripPrefix | src/main/java/com/controllerface/bvge/gpu/GPU.java:1508 | removing "__global" from a buffer type leaves the type and the suffix |
| KernelSource.StripSuffix | src/main/java/com/controllerface/bvge/gpu/GPU.java:1509 | removing "*" leaves the bare type between spaces |
| KernelSource.LocalTypeOfBufferName | src/main/java/com/controllerface/bvge/gpu/GPU.java:1506-1510 | the local copy of a buffer argument is declared with the buffer's element type |
| KernelSource.ReadLines | src/main/java/com/controllerface/bvge/gpu/GPU.java:1504-1516 | one local copy per argument after the shift |
| KernelSource.WriteLines | src/main/java/com/controllerface/bvge/gpu/GPU.java:1523-1532 | one write-back per argument after the shift |
| KernelSource.ReadLinesNext | src/main/java/com/controllerface/bvge/gpu/GPU.java:1504-1516 | each iteration appends the next copy line |
| KernelSource.WriteLinesNext | src/main/java/com/controllerface/bvge/gpu/GPU.java:1523-1532 | each iteration appends the next write-back line |
| KernelSource.ReadLineAt | src/main/java/com/controllerface/bvge/gpu/GPU.java:1504-1516 | copy line j reads argument j at [current] into _name |
| KernelSource.WriteLineAt | src/main/java/com/controllerface/bvge/gpu/GPU.java:1523-1532 | write-back line j stores _name at [new_index] |
| KernelSource.AppendCopies | src/main/java/com/controllerface/bvge/gpu/GPU.java:1504-1516 | the first loop appends exactly the copy lines |
| KernelSource.AppendStores | src/main/java/com/controllerface/bvge/gpu/GPU.java:1523-1532 | the second loop appends exactly the write-back lines |
| KernelSource.GenerateCompactKernel | src/main/java/com/controllerface/bvge/gpu/GPU.java:1489-1537 | compact_k_src builds exactly the compact kernel text, or fails when there is no shift argument |
| KernelSource.CompactKernelNeedsShift | src/main/java/com/controllerface/bvge/gpu/GPU.java:1502 | generation fails exactly when the enum has no constants (arguments[0] does not exist) |
| KernelSource.CompactKernelLayout | src/main/java/com/controllerface/bvge/gpu/GPU.java:1491-1536 | the compact kernel has 10 + 2n pieces: the shift read from argument 0, the copies, the barrier, the shift guard, new_index, the write-backs and the two closing braces in that order |
| KernelSource.CompactKernelMoves | src/main/java/com/controllerface/bvge/gpu/GPU.java:1504-1532 | argument i is copied before the barrier and written back at new_index after it |
| UnorderedCoreBuffers.Kind | src/main/java/com/controllerface/bvge/game/world/sectors/UnorderedCoreBufferGroup.java:17-22 | each core buffer is sized by one of the six counts |
| UnorderedCoreBuffers.Width | src/main/java/com/controllerface/bvge/game/world/sectors/UnorderedCoreBufferGroup.java:160-167 | each buffer holds 1, 2, 4 or 16 elements per object |
| UnorderedCoreBuffers.RequiredIsCountTimesWidth | src/main/java/com/controllerface/bvge/game/world/sectors/UnorderedCoreBufferGroup.java:153-217 | the capacity a buffer needs is its object count times its width |
| UnorderedCoreBuffers.Larger | src/main/java/com/controllerface/bvge/game/world/sectors/UnorderedCoreBufferGroup.java:219-238 | the larger of the current length and the required capacity |
| UnorderedCoreBuffers.Ensured | src/main/java/com/controllerface/bvge/game/world/sectors/UnorderedCoreBufferGroup.java:219-238 | an array that is long enough is kept as it is; a short one is replaced by a zeroed array of exactly the required length |
| UnorderedCoreBuffers.EnsuredSpaceFits | src/main/java/com/controllerface/bvge/game/world/sectors/UnorderedCoreBufferGroup.java:151-217 | after ensure_space every array is as long as the larger of its old length and what the counts require |
| UnorderedCoreBuffers.Raw.constructor | src/main/java/com/controllerface/bvge/game/world/sectors/UnorderedCoreBufferGroup.java:100-149 | every raw array starts empty |
| UnorderedCoreBuffers.Raw.EnsureSpace | src/main/java/com/controllerface/bvge/game/world/sectors/UnorderedCoreBufferGroup.java:151-217 | every array is ensured against the count and width of its buffer |
| UnorderedCoreBuffers.EntityTransfersMatchTable | src/main/java/com/controllerface/bvge/game/world/sectors/UnorderedCoreBufferGroup.java:79-97 | each entity buffer is copied with count times its width elements |
| UnorderedCoreBuffers.HullTransfersMatchTable | src/main/java/com/controllerface/bvge/game/world/sectors/UnorderedCoreBufferGroup.java:60-77 | each hull buffer is copied with count times its width elements |
| UnorderedCoreBuffers.PointTransfersMatchTable | src/main/java/com/controllerface/bvge/game/world/sectors/UnorderedCoreBufferGroup.java:49-58 | each point buffer is copied with count times its width elements |
| UnorderedCoreBuffers.EdgeTransfersMatchTable | src/main/java/com/controllerface/bvge/game/world/sectors/UnorderedCoreBufferGroup.java:40-47 | each edge buffer is copied with count times its width elements |
| UnorderedCoreBuffers.HullBoneTransfersMatchTable | src/main/java/com/controllerface/bvge/game/world/sectors/UnorderedCoreBufferGroup.java:24-30 | each hull-bone buffer is copied with count times its width elements |
| UnorderedCoreBuffers.EntityBoneTransfersMatchTable | src/main/java/com/controllerface/bvge/game/world/sectors/UnorderedCoreBufferGroup.java:32-38 | each entity-bone buffer is copied with count times its width elements |
| UnorderedCoreBuffers.KindTransfersMatchTable | src/main/java/com/controllerface/bvge/game/world/sectors/UnorderedCoreBufferGroup.java:24-97 | every block's transfers agree with the buffer widths |
| UnorderedCoreBuffers.UnloadCopiesReservedLengths | src/main/java/com/controllerface/bvge/game/world/sectors/UnorderedCoreBufferGroup.java:15-98 | every transfer belongs to a positive count and copies exactly what ensure_space reserves for its buffer |
| UnorderedCoreBuffers.HullBoneBlockCopies | src/main/java/com/controllerface/bvge/game/world/sectors/UnorderedCoreBufferGroup.java:24-30 | every hull-bone buffer is in the hull-bone block |
| UnorderedCoreBuffers.EntityBoneBlockCopies | src/main/java/com/controllerface/bvge/game/world/sectors/UnorderedCoreBufferGroup.java:32-38 | every entity-bone buffer is in the entity-bone block |
| UnorderedCoreBuffers.EdgeBlockCopies | src/main/java/com/controllerface/bvge/game/world/sectors/UnorderedCoreBufferGroup.java:40-47 | every edge buffer is in the edge block |
| UnorderedCoreBuffers.PointBlockCopies | src/main/java/com/controllerface/bvge/game/world/sectors/UnorderedCoreBufferGroup.java:49-58 | every point buffer is in the point block |
| UnorderedCoreBuffers.HullBlockCopies | src/main/java/com/controllerface/bvge/game/world/sectors/UnorderedCoreBufferGroup.java:60-77 | every hull buffer is in the hull block |
| UnorderedCoreBuffers.EntityBlockCopies | src/main/java/com/controllerface/bvge/game/world/sectors/UnorderedCoreBufferGroup.java:79-97 | every entity buffer is in the entity block |
| UnorderedCoreBuffers.UnloadCopiesEveryBuffer | src/main/java/com/controllerface/bvge/game/world/sectors/UnorderedCoreBufferGroup.java:15-98 | every buffer whose count is positive is copied out in full |
| UnorderedCoreBuffers.UnloadFitsEnsuredSpace | src/main/java/com/controllerface/bvge/game/world/sectors/UnorderedCoreBufferGroup.java:15-217 | after ensure_space with the same counts, every transfer fits its raw array |
| UnorderedCoreBuffers.UnorderedCoreBufferGroup.constructor | src/main/java/com/controllerface/bvge/game/world/sectors/UnorderedCoreBufferGroup.java:10-13 | no transfers yet |
| UnorderedCoreBuffers.UnorderedCoreBufferGroup.UnloadHullBones | src/main/java/com/controllerface/bvge/game/world/sectors/UnorderedCoreBufferGroup.java:24-30 | the hull-bone transfers are appended when that count is positive |
| UnorderedCoreBuffers.UnorderedCoreBufferGroup.UnloadEntityBones | src/main/java/com/controllerface/bvge/game/world/sectors/UnorderedCoreBufferGroup.java:32-38 | the entity-bone transfers are appended when that count is positive |
| UnorderedCoreBuffers.UnorderedCoreBufferGroup.UnloadEdges | src/main/java/com/controllerface/bvge/game/world/sectors/UnorderedCoreBufferGroup.java:40-47 | the edge transfers are appended when that count is positive |
| UnorderedCoreBuffers.UnorderedCoreBufferGroup.UnloadPoints | src/main/java/com/controllerface/bvge/game/world/sectors/UnorderedCoreBufferGroup.java:49-58 | the point transfers are appended when that count is positive |
| UnorderedCoreBuffers.UnorderedCoreBufferGroup.UnloadHulls | src/main/java/com/controllerface/bvge/game/world/sectors/UnorderedCoreBufferGroup.java:60-77 | the hull transfers are appended when that count is positive |
| UnorderedCoreBuffers.UnorderedCoreBufferGroup.UnloadEntities | src/main/java/com/controllerface/bvge/game/world/sectors/UnorderedCoreBufferGroup.java:79-97 | the entity transfers are appended when that count is positive |
| UnorderedCoreBuffers.UnorderedCoreBufferGroup.UnloadSectors | src/main/java/com/controllerface/bvge/game/world/sectors/UnorderedCoreBufferGroup.java:15-98 | the transfers recorded are the six blocks in order |
| WorldLoading.ColumnSpanHolds | src/main/java/com/controllerface/bvge/game/world/WorldLoader.java:89-103 | the sectors the inner loop visits are exactly column sx from y0 up to y1 |
| WorldLoading.SpanHolds | src/main/java/com/controllerface/bvge/game/world/WorldLoader.java:87-104 | the sectors the nested loops visit are exactly the rectangle of columns x0..x1 and rows y0..y1 |
| WorldLoading.RectHolds | src/main/java/com/controllerface/bvge/game/world/WorldLoader.java:87-104 | the loaded set is exactly the sectors between the two corner keys, both inclusive |
| WorldLoading.Fetched | src/main/java/com/controllerface/bvge/game/world/WorldLoader.java:100 | one batch per newly loaded sector |
| WorldLoading.FetchedAt | src/main/java/com/controllerface/bvge/game/world/WorldLoader.java:100 | the i-th batch is the cached batch of the i-th new sector, or the generated one when it is not cached |
| WorldLoading.FetchedAppend | src/main/java/com/controllerface/bvge/game/world/WorldLoader.java:100 | fetching two runs of sectors is fetching them one after the other |
| WorldLoading.Cached | src/main/java/com/controllerface/bvge/game/world/WorldLoader.java:100 | fetching no sector leaves the cache as it was |
| WorldLoading.CacheHoldsFetched | src/main/java/com/controllerface/bvge/game/world/WorldLoader.java:100 | after the fetches the cache holds the old keys and the fetched sectors, each mapped to what was fetched for it |
| WorldLoading.ColumnAscends | src/main/java/com/controllerface/bvge/game/world/WorldLoader.java:89-103 | a column's new sectors are loaded bottom to top: exactly the rows in range not loaded before |
| WorldLoading.ColumnsAscend | src/main/java/com/controllerface/bvge/game/world/WorldLoader.java:87-104 | the columns' new sectors are loaded column by column, exactly those in range not loaded before |
| WorldLoading.LoadsEachNewSectorOnce | src/main/java/com/controllerface/bvge/game/world/WorldLoader.java:87-104 | a sector is fetched exactly when it is in range and was not loaded before, and no sector twice |
| WorldLoading.RectangleStart | src/main/java/com/controllerface/bvge/game/world/WorldLoader.java:83-87 | before the loops nothing is loaded and nothing fetched |
| WorldLoading.ColumnStart | src/main/java/com/controllerface/bvge/game/world/WorldLoader.java:89 | a column starts with no row visited |
| WorldLoading.RowKept | src/main/java/com/controllerface/bvge/game/world/WorldLoader.java:92-96 | a sector loaded before is kept without loading a batch |
| WorldLoading.RowLoaded | src/main/java/com/controllerface/bvge/game/world/WorldLoader.java:97-102 | a new sector is fetched through the cache and its batch loaded |
| WorldLoading.SpanGrows | src/main/java/com/controllerface/bvge/game/world/WorldLoader.java:89-99 | each row visited extends the loaded set by that sector |
| WorldLoading.ColumnGrows | src/main/java/com/controllerface/bvge/game/world/WorldLoader.java:89-102 | each new sector extends the column's run of new sectors |
| WorldLoading.FetchedStep | src/main/java/com/controllerface/bvge/game/world/WorldLoader.java:100-101 | one more fetch extends the batch log and the cache by that sector |
| WorldLoading.ColumnEnd | src/main/java/com/controllerface/bvge/game/world/WorldLoader.java:89-104 | a finished column adds its new sectors to those done |
| WorldLoading.RectangleEnd | src/main/java/com/controllerface/bvge/game/world/WorldLoader.java:87-104 | after the loops the loaded set is the rectangle, the batches are the new sectors' fetches in loop order, and the cache holds them |
| WorldLoading.WorldLoader.constructor | src/main/java/com/controllerface/bvge/game/world/WorldLoader.java:36-49 | the loader shares the given cache and queues and has loaded nothing |
| WorldLoading.WorldLoader.LoadSectors | src/main/java/com/controllerface/bvge/game/world/WorldLoader.java:72-123 | load_sectors: the old set is the previous new set, the new set is the rectangle between the two keys, the new sectors' batches are loaded in loop order and then every queued batch, the load queue is empty, and the sectors that left the rectangle are appended to the unload queue, each once |
| WorldLoading.WorldLoader.LoadRectangle | src/main/java/com/controllerface/bvge/game/world/WorldLoader.java:87-104 | the nested loops: the rectangle is loaded and the batches of its new sectors fetched and loaded in order |
| WorldLoading.WorldLoader.CacheGet | src/main/java/com/controllerface/bvge/game/world/WorldLoader.java:100 | Cache.get: the cached batch when present, else the generated one, which is then cached |
| WorldLoading.WorldLoader.QueueUnloads | src/main/java/com/controllerface/bvge/game/world/WorldLoader.java:106-112 | the unload queue gains exactly the sectors loaded before and not now, each once |
| WorldLoading.WorldLoader.DrainLoadQueue | src/main/java/com/controllerface/bvge/game/world/WorldLoader.java:118-122 | every queued batch is loaded, in queue order, and the queue is left empty |
| WorldUnloading.Cons | src/main/java/com/controllerface/bvge/game/world/WorldUnloader.java:126-151 | a read that throws stops the run with its fault; otherwise its value comes first |
| WorldUnloading.After | src/main/java/com/controllerface/bvge/game/world/WorldUnloader.java:126-151 | values read so far come before the rest, unless the rest throws |
| WorldUnloading.AfterCons | src/main/java/com/controllerface/bvge/game/world/WorldUnloader.java:126-151 | reading one more element either throws or moves it to the values read |
| WorldUnloading.AfterEnds | src/main/java/com/controllerface/bvge/game/world/WorldUnloader.java:126-151 | nothing read before, or nothing left, adds nothing |
| WorldUnloading.EntityBoneRun | src/main/java/com/controllerface/bvge/game/world/WorldUnloader.java:125-151 | an entity's bone run, when it reads, has one bone per table slot |
| WorldUnloading.HullBoneRun | src/main/java/com/controllerface/bvge/game/world/WorldUnloader.java:232-258 | a hull's bone run has one bone per table slot |
| WorldUnloading.PointRun | src/main/java/com/controllerface/bvge/game/world/WorldUnloader.java:189-213 | a hull's point run has one point per table slot |
| WorldUnloading.EdgeRun | src/main/java/com/controllerface/bvge/game/world/WorldUnloader.java:215-230 | a hull's edge run has one edge per table slot |
| WorldUnloading.PointRunAll | src/main/java/com/controllerface/bvge/game/world/WorldUnloader.java:189-213 | the point run reads exactly when every point in the table reads, and its i-th point is the one at table start + i |
| WorldUnloading.EdgeRunAll | src/main/java/com/controllerface/bvge/game/world/WorldUnloader.java:215-230 | the edge run reads exactly when every edge in the table reads, and its i-th edge is the one at table start + i |
| WorldUnloading.EdgesAreHullRelative | src/main/java/com/controllerface/bvge/game/world/WorldUnloader.java:221-229 | each unloaded edge's end points are made relative to the hull's first point, so edges between the hull's own points stay within its point run |
| WorldUnloading.HullRun | src/main/java/com/controllerface/bvge/game/world/WorldUnloader.java:154-265 | an entity's hull run has one hull per table slot |
| WorldUnloading.HullTablesSized | src/main/java/com/controllerface/bvge/game/world/WorldUnloader.java:185-187 | an unloaded hull holds exactly as many points, edges and bones as its tables span |
| WorldUnloading.EntityIsSelfContained | src/main/java/com/controllerface/bvge/game/world/WorldUnloader.java:115-272 | an unloaded entity holds as many bones and hulls as its tables span, and its root hull is made relative to its first hull, so an in-range root indexes its own hulls |
| WorldUnloading.BonesNeedBoneData | src/main/java/com/controllerface/bvge/game/world/WorldUnloader.java:119-123 | an entity with bones when no bone data was copied throws "unexpected bone table size" with the table length |
| WorldUnloading.EntityReads | src/main/java/com/controllerface/bvge/game/world/WorldUnloader.java:81-286 | one read per entity offset below the count |
| WorldUnloading.EntityReadsAre | src/main/java/com/controllerface/bvge/game/world/WorldUnloader.java:81-286 | the i-th read is the entity at offset i |
| WorldUnloading.Unloaded | src/main/java/com/controllerface/bvge/game/world/WorldUnloader.java:267-285 | the running batches keep their keys while entities are added |
| WorldUnloading.UnloadingOnlyAppends | src/main/java/com/controllerface/bvge/game/world/WorldUnloader.java:285 | a batch only gains entities: its old content is a prefix of the new |
| WorldUnloading.EntityLandsInItsSector | src/main/java/com/controllerface/bvge/game/world/WorldUnloader.java:268-285 | without a fault every entity is stored in the batch of the sector holding its position |
| WorldUnloading.UnloadedNeedsEveryBatch | src/main/java/com/controllerface/bvge/game/world/WorldUnloader.java:119-271 | the unload succeeds exactly when every entity reads and the sector of each has a running batch (requireNonNull) |
| WorldUnloading.Overwritten | src/main/java/com/controllerface/bvge/game/world/WorldUnloader.java:301 | the copied values overwrite the front of the raw array; the rest keeps its old values |
| WorldUnloading.Live | src/main/java/com/controllerface/bvge/game/world/WorldUnloader.java:304-306 | the broken objects read are those before the first type -1 |
| WorldUnloading.StaleObjectsAreSkipped | src/main/java/com/controllerface/bvge/game/world/WorldUnloader.java:301-349 | with the types cleared to -1 after each pass, exactly the objects copied this pass are read |
| WorldUnloading.PiecesSurroundTheObject | src/main/java/com/controllerface/bvge/game/world/WorldUnloader.java:312-343 | every piece is a collectable spawn of the object's substance, half a block in size, offset by a quarter of that less 2 along each axis; a non-solid object gives no piece; an object gives 0, 2 or 3 pieces |
| WorldUnloading.WorldUnloader.constructor | src/main/java/com/controllerface/bvge/game/world/WorldUnloader.java:32-46 | shares the given cache and queues; no running batches; the broken types start cleared |
| WorldUnloading.WorldUnloader.Tick | src/main/java/com/controllerface/bvge/game/world/WorldUnloader.java:354-364 | every sector taken from the unload queue gets a fresh empty running batch, other batches are kept, and the queue is left empty |
| WorldUnloading.WorldUnloader.UnloadSectors | src/main/java/com/controllerface/bvge/game/world/WorldUnloader.java:75-293 | with no entities nothing changes; otherwise every entity is read and added to its sector's batch, and on success the running batches are put into the sector cache and cleared; a fault leaves the cache as it was |
| WorldUnloading.WorldUnloader.UnloadEntities | src/main/java/com/controllerface/bvge/game/world/WorldUnloader.java:81-286 | the per-entity loop gives the running batches and fault of Unloaded |
| WorldUnloading.WorldUnloader.UnloadBroken | src/main/java/com/controllerface/bvge/game/world/WorldUnloader.java:295-351 | with no broken objects nothing changes; otherwise one batch with the pieces of the live objects is queued for loading and the types are cleared again |
| WorldUnloading.BreakObjects | src/main/java/com/controllerface/bvge/game/world/WorldUnloader.java:304-344 | the loop builds the pieces of the live objects, in order |
| WorldUnloading.ReadEntity | src/main/java/com/controllerface/bvge/game/world/WorldUnloader.java:83-283 | the reads and the exception of one entity, as EntityAt |
| WorldUnloading.ReadEntityBones | src/main/java/com/controllerface/bvge/game/world/WorldUnloader.java:125-151 | the entity bone loop, as EntityBoneRun |
| WorldUnloading.ReadHulls | src/main/java/com/controllerface/bvge/game/world/WorldUnloader.java:153-265 | the hull loop, as HullRun |
| WorldUnloading.ReadHull | src/main/java/com/controllerface/bvge/game/world/WorldUnloader.java:156-264 | one hull's reads, as HullAt |
| WorldUnloading.ReadPoints | src/main/java/com/controllerface/bvge/game/world/WorldUnloader.java:189-213 | the point loop, as PointRun |
| WorldUnloading.ReadEdges | src/main/java/com/controllerface/bvge/game/world/WorldUnloader.java:215-230 | the edge loop, as EdgeRun |
| WorldUnloading.ReadHullBones | src/main/java/com/controllerface/bvge/game/world/WorldUnloader.java:232-258 | the hull bone loop, as HullBoneRun |
| MeshRegistration.MeshKey | src/main/java/com/controllerface/bvge/geometry/MeshRegistry.java:103 | the key is the model name, a colon and the mesh name, and each part can be read back from it |
| MeshRegistration.KeysOfDifferentPairsCanCoincide | src/main/java/com/controllerface/bvge/geometry/MeshRegistry.java:103-107 | the key does not tell the pairs ("a:b", "c") and ("a", "b:c") apart, so the second registration is refused as a duplicate |
| MeshRegistration.MeshRegistry.constructor | src/main/java/com/controllerface/bvge/geometry/MeshRegistry.java:13-23 | the six built-in ids 0 to 5 are taken in declaration order, the counter stands at 6 and no mesh is loaded |
| MeshRegistration.MeshRegistry.Init | src/main/java/com/controllerface/bvge/geometry/MeshRegistry.java:62-70 | each built-in mesh is stored under its built-in id |
| MeshRegistration.MeshRegistry.GetMeshByIndex | src/main/java/com/controllerface/bvge/geometry/MeshRegistry.java:72-75 | the mesh stored under the id, or null (None) exactly when none is |
| MeshRegistration.MeshRegistry.RegisterMesh | src/main/java/com/controllerface/bvge/geometry/MeshRegistry.java:101-113 | a key registered before throws "mesh: <key>already registered." and changes nothing; otherwise the mesh gets the next id, above every id handed out before, and is stored under it and under its key |
| MeshRegistration.MeshRegistry.Put | src/main/java/com/controllerface/bvge/geometry/MeshRegistry.java:115-118 | the mesh is stored under the id, replacing any mesh there |
| MeshRegistration.RegisterTwo | src/main/java/com/controllerface/bvge/geometry/MeshRegistry.java:101-113 | two meshes registered under distinct new keys get increasing ids and each can be looked up by its own id |
| SpriteBatches.QuadCorner | src/main/java/com/controllerface/bvge/gl/batches/SpriteRenderBatch.java:309-318 | each of a quad's six elements names one of its four vertices |
| SpriteBatches.QuadElements | src/main/java/com/controllerface/bvge/gl/batches/SpriteRenderBatch.java:306-318 | quad i's elements are 4i+3, 4i+2, 4i, 4i, 4i+2, 4i+1 |
| SpriteBatches.QuadTrianglesCoverTheQuad | src/main/java/com/controllerface/bvge/gl/batches/SpriteRenderBatch.java:304-319 | each quad's six elements stay within its own four vertices, form two triangles of three distinct vertices each, and together use all four |
| SpriteBatches.LoadElementIndices | src/main/java/com/controllerface/bvge/gl/batches/SpriteRenderBatch.java:304-319 | the quad's six slots hold its element indices and no other slot changes |
| SpriteBatches.GenerateIndices | src/main/java/com/controllerface/bvge/gl/batches/SpriteRenderBatch.java:292-302 | an array of six elements per quad, each holding its element index |
| SpriteBatches.ElementsNameBatchVertices | src/main/java/com/controllerface/bvge/gl/batches/SpriteRenderBatch.java:292-302 | every element names a vertex of the batch |
| SpriteBatches.WithTexture | src/main/java/com/controllerface/bvge/gl/batches/SpriteRenderBatch.java:122-128 | a sprite's texture is added when it is not in the list: the list stays free of duplicates, holds the texture, and holds nothing else new |
| SpriteBatches.TexId | src/main/java/com/controllerface/bvge/gl/batches/SpriteRenderBatch.java:202-213 | the texture slot is 1 + the position of the first equal texture, or 0 when the sprite has none or it is not in the list |
| SpriteBatches.FirstFrom | src/main/java/com/controllerface/bvge/gl/batches/SpriteRenderBatch.java:205-212 | the search returns the first match from position i on, or 0 when there is none |
| SpriteBatches.UnrotatedQuadIsCentred | src/main/java/com/controllerface/bvge/gl/batches/SpriteRenderBatch.java:229-254 | an unrotated sprite's corners span its scale and are centred on its position, the other two corners sharing their coordinates |
| SpriteBatches.SpriteRenderBatch.constructor | src/main/java/com/controllerface/bvge/gl/batches/SpriteRenderBatch.java:59-71 | room for MAX_BATCH_SIZE sprites and four vertices of ten floats each; no sprites, room, no textures |
| SpriteBatches.SpriteRenderBatch.Clear | src/main/java/com/controllerface/bvge/gl/batches/SpriteRenderBatch.java:73-79 | no sprites, room again, no textures |
| SpriteBatches.SpriteRenderBatch.CompareTo | src/main/java/com/controllerface/bvge/gl/batches/SpriteRenderBatch.java:341-345 | Integer.compare on the z indices: -1, 0 or 1 with the sign of the difference |
| SpriteBatches.SpriteRenderBatch.HasTextureRoom | src/main/java/com/controllerface/bvge/gl/batches/SpriteRenderBatch.java:326-329 | hasTextureRoom: with room, adding any texture keeps the batch within its eight texture slots; without room, all eight are taken |
| SpriteBatches.SpriteRenderBatch.HasTexture | src/main/java/com/controllerface/bvge/gl/batches/SpriteRenderBatch.java:331-334 | hasTexture holds exactly when the texture-slot lookup used for the vertices finds the texture (a slot above 0) |
| SpriteBatches.SpriteRenderBatch.AddSprite | src/main/java/com/controllerface/bvge/gl/batches/SpriteRenderBatch.java:115-137 | the sprite goes in the next slot, its texture is added if new, its 40 vertex floats are written and nothing else, and the batch has room exactly while it is below MAX_BATCH_SIZE |
| SpriteBatches.SpriteRenderBatch.FindTexId | src/main/java/com/controllerface/bvge/gl/batches/SpriteRenderBatch.java:202-213 | the loop finds the texture slot TexId |
| SpriteBatches.SpriteRenderBatch.LoadVertexProperties | src/main/java/com/controllerface/bvge/gl/batches/SpriteRenderBatch.java:192-284 | the sprite's 40 floats are position, colour, UV, texture slot and -1 for each of the four vertices; no other float changes |
| SpriteBatches.SpriteRenderBatch.WriteVertex | src/main/java/com/controllerface/bvge/gl/batches/SpriteRenderBatch.java:261-282 | one vertex's ten floats, no other float changed |
| Inventory.IndexOf | src/main/java/com/controllerface/bvge/ecs/systems/InventorySystem.java:96-114 | List.indexOf: the first row holding the substance, or -1 exactly when no row does |
| Inventory.IndexFrom | src/main/java/com/controllerface/bvge/ecs/systems/InventorySystem.java:96-114 | the first row from a given position holding the substance, or -1 |
| Inventory.NextStocked | src/main/java/com/controllerface/bvge/ecs/systems/InventorySystem.java:98-106 | the first row from the start position with a positive count, or the end when none has |
| Inventory.PrevStocked | src/main/java/com/controllerface/bvge/ecs/systems/InventorySystem.java:116-124 | the last row below the start position with a positive count, or -1 when none has |
| Inventory.NextItemOf | src/main/java/com/controllerface/bvge/ecs/systems/InventorySystem.java:91-107 | findNextItem: the first stocked substance in a row after the current item's row (from the first row when there is no current item), or null exactly when no later row is stocked |
| Inventory.PrevItemOf | src/main/java/com/controllerface/bvge/ecs/systems/InventorySystem.java:109-125 | findPrevItem: the last stocked substance in a row before the current item's row (from the last row when there is no current item), or null exactly when no earlier row is stocked |
| Inventory.FindNextItem | src/main/java/com/controllerface/bvge/ecs/systems/InventorySystem.java:91-107 | the loop returns NextItemOf |
| Inventory.FindPrevItem | src/main/java/com/controllerface/bvge/ecs/systems/InventorySystem.java:109-125 | the loop returns PrevItemOf |
| Inventory.IndexOfDistinct | src/main/java/com/controllerface/bvge/ecs/systems/InventorySystem.java:96-114 | with one row per substance, indexOf finds each row's own substance at that row |
| Inventory.NextThenPrevReturns | src/main/java/com/controllerface/bvge/ecs/systems/InventorySystem.java:91-125 | from a stocked current item, the previous item of the next item is the current item again |
| Inventory.PrevThenNextReturns | src/main/java/com/controllerface/bvge/ecs/systems/InventorySystem.java:91-125 | from a stocked current item, the next item of the previous item is the current item again |
| Inventory.PrevStopsAt | src/main/java/com/controllerface/bvge/ecs/systems/InventorySystem.java:116-124 | the backward search stops at the nearest stocked row below its start |
| Inventory.NextStopsAt | src/main/java/com/controllerface/bvge/ecs/systems/InventorySystem.java:98-106 | the forward search stops at the nearest stocked row from its start |
| Inventory.EarlierCommandsAreDropped | src/main/java/com/controllerface/bvge/ecs/systems/InventorySystem.java:137-151 | only the last queued command counts: the commands before it have no effect |
| Inventory.PlacingName | src/main/java/com/controllerface/bvge/ecs/systems/InventorySystem.java:155 | the announced name is the substance's name, or "-" for no selection |
| Inventory.Collect | src/main/java/com/controllerface/bvge/ecs/systems/InventorySystem.java:84 | collecting adds the quantity to that substance's count and leaves every other count alone |
| Inventory.IndexOfAppend | src/main/java/com/controllerface/bvge/ecs/systems/InventorySystem.java:84 | a new row at the end is found only for its own substance, and only when no earlier row has it |
| Inventory.SameSolidsSameIndex | src/main/java/com/controllerface/bvge/ecs/systems/InventorySystem.java:84 | changing counts does not move a substance's row |
| Inventory.CollectAll | src/main/java/com/controllerface/bvge/ecs/systems/InventorySystem.java:75-85 | collecting keeps one row per substance |
| Inventory.CollectAllStep | src/main/java/com/controllerface/bvge/ecs/systems/InventorySystem.java:75-85 | the loop collects the collected items one at a time, in order |
| Inventory.CollectAllTally | src/main/java/com/controllerface/bvge/ecs/systems/InventorySystem.java:75-85 | after the loop each substance's count has grown by the number of times it was collected |
| Inventory.InventorySystem.constructor | src/main/java/com/controllerface/bvge/ecs/systems/InventorySystem.java:30-42 | the inventory as given, no current block, no queued commands, nothing emitted |
| Inventory.InventorySystem.Tick | src/main/java/com/controllerface/bvge/ecs/systems/InventorySystem.java:127-165 | the queue is drained; the selection becomes the one the last command leads to; when it changes, ITEM_PLACING with its name and SELECT_BLOCK are emitted and the block cursor takes it; when it does not, nothing is emitted |
| Inventory.InventorySystem.SelectFor | src/main/java/com/controllerface/bvge/ecs/systems/InventorySystem.java:144-151 | a NEXT_ITEM command selects findNextItem, a PREV_ITEM command findPrevItem |
| Inventory.InventorySystem.PollLast | src/main/java/com/controllerface/bvge/ecs/systems/InventorySystem.java:132-142 | the polling loop keeps the last queued event, or none when the queue was empty, and leaves the queue empty |
| Inventory.InventorySystem.UnloadCollected | src/main/java/com/controllerface/bvge/ecs/systems/InventorySystem.java:69-88 | each collected item adds one to its substance, and one ITEM_CHANGE is emitted exactly when something was collected |
| Hud.CommandOfLetter | src/main/java/com/controllerface/bvge/rendering/renderers/HUDRenderer.java:81-92 | the four command words of letter i are: 4 vertices, 1 instance, first vertex 4*i and base instance i |
| Hud.LettersTileTheVertexBuffer | src/main/java/com/controllerface/bvge/rendering/renderers/HUDRenderer.java:84-91 | each letter's first vertex is the previous letter's first vertex plus its 4 vertices, so the strips tile the vertex buffer without gaps |
| Hud.Spaces | src/main/java/com/controllerface/bvge/rendering/renderers/HUDRenderer.java:157-160 | the padding is exactly max(n, 0) space characters |
| Hud.PaddedShape | src/main/java/com/controllerface/bvge/rendering/renderers/HUDRenderer.java:152-162 | a padded label keeps the name as its prefix, is as long as the wider of the name and the width, and holds only spaces after the name |
| Hud.PaddedLabelsAlign | src/main/java/com/controllerface/bvge/rendering/renderers/HUDRenderer.java:152-162 | any two names no longer than the width pad to the same length, the width |
| Hud.StockedBefore | src/main/java/com/controllerface/bvge/rendering/renderers/HUDRenderer.java:167-174 | the rank of a row is between 0 and the number of rows before it |
| Hud.LabelsStep | src/main/java/com/controllerface/bvge/rendering/renderers/HUDRenderer.java:168-177 | each inventory row with a positive count adds its label at the current rank and raises the rank by one; a row with no stock changes nothing |
| Hud.LabelledExactlyStocked | src/main/java/com/controllerface/bvge/rendering/renderers/HUDRenderer.java:166-177 | a solid has a label exactly when some inventory row for it has a positive count |
| Hud.LabelOfStockedRow | src/main/java/com/controllerface/bvge/rendering/renderers/HUDRenderer.java:170-175 | with one row per solid, a stocked solid's label is its padded name, " : ", its count, at y offset 150 plus its rank times the line height |
| Hud.RanksGrow | src/main/java/com/controllerface/bvge/rendering/renderers/HUDRenderer.java:174 | a stocked row is placed strictly above every later row, so labels never overlap |
| Hud.Placed | src/main/java/com/controllerface/bvge/rendering/renderers/HUDRenderer.java:291-297 | the event loop keeps the same text boxes, the "placing" one included |
| Hud.EventStep | src/main/java/com/controllerface/bvge/rendering/renderers/HUDRenderer.java:281-297 | one more event marks the HUD dirty when it is a resize or an item change, and a message event replaces the "placing" text |
| Hud.PlacedChangesOnlyPlacingText | src/main/java/com/controllerface/bvge/rendering/renderers/HUDRenderer.java:291-297 | events change no text box but "placing", and of that one only the message: snap, position and scale stay |
| Hud.PlacingShowsSelection | src/main/java/com/controllerface/bvge/rendering/renderers/HUDRenderer.java:291-297 | after the announcement of an item selection the "placing" box shows that item's name, or "-" for none |
| Hud.HUDRenderer.constructor | src/main/java/com/controllerface/bvge/rendering/renderers/HUDRenderer.java:72-79 | the command buffer is built, the four text boxes debug, debug2, placing and inventory are set up with their texts, snaps, positions and scales, and the metrics bound every glyph height and solid name |
| Hud.HUDRenderer.BuildCmd | src/main/java/com/controllerface/bvge/rendering/renderers/HUDRenderer.java:81-92 | every word of the command buffer is the indirect-draw command word of its letter |
| Hud.HUDRenderer.GatherTextMetrics | src/main/java/com/controllerface/bvge/rendering/renderers/HUDRenderer.java:94-104 | the tallest glyph height and the longest solid name are maxima: at least every candidate, equal to one of them or the old value, never lower than before |
| Hud.HUDRenderer.PadLabel | src/main/java/com/controllerface/bvge/rendering/renderers/HUDRenderer.java:152-162 | the label padded with spaces to the widest solid name |
| Hud.HUDRenderer.RebuildInventory | src/main/java/com/controllerface/bvge/rendering/renderers/HUDRenderer.java:164-178 | the solid labels are cleared and rebuilt, one per stocked inventory row in order |
| Hud.HUDRenderer.HandleEvents | src/main/java/com/controllerface/bvge/rendering/renderers/HUDRenderer.java:278-298 | the queue is drained; the HUD is dirty when it was or any event dirties it, and the text boxes follow the message events |
| Hud.HUDRenderer.Render | src/main/java/com/controllerface/bvge/rendering/renderers/HUDRenderer.java:180-298 | after the events, a dirty HUD rebuilds its inventory labels and is clean again; a clean HUD keeps its labels |

## Left out

Java numbers and exceptions:

- Java `int` and `long` overflow is not modelled. The slot counters and offsets of `SlotCounters`, `SectorController`, `SectorInput` and `GPUCoreMemory` are unbounded integers, and so are the work-group arithmetic of `GPUDevice` and the buffer sizes of `UnorderedCoreBuffers`. The model takes these values to stay below 2^31.
- GPUDevice.PreferredWorkSize: the `(int)` cast of the device's reported `long` (GPU.java:893) is not modelled; the reported value is taken to fit an `int`.
- GPUDevice.FitWorkGroup: requires a positive local memory size. On 0 or less the Java loop never ends; see Findings.
- UnorderedCoreBuffers.RequiredIsCountTimesWidth: the product of count and width is not wrapped to 32 bits.
- Java `float` is modelled as `real`, with no rounding. This covers positions, scales and `blockSize` in `WorldUnloading`, the HUD metrics, sprite vertices and blend times. Only `AnimationSettings.FloatText` models `Float.toString`, for the values the settings table uses.
- GPUCoreMemory.GPUCoreMemory.NewPoint: requires a position of at least two floats, where Java throws `ArrayIndexOutOfBoundsException` on a shorter array.
- GPUCoreMemory.GPUCoreMemory.CompactBuffers: requires at least six shift counts, where Java throws on fewer. The same precondition is on `SectorController.SectorController.Compact` and `SectorInput.SectorInput.Compact`.
- UnorderedCoreBuffers.Raw.EnsureSpace: requires at least six counts, where Java throws on fewer.
- PhysicsObjects.GetIndex: requires the offset to be -1 or a valid index, where Java throws on any other offset.
- EntityLoading.LoadEntity: requires a well-formed stored entity (every table and reference in range), where Java throws part-way through on a malformed one.
- SpatialMap.SpatialMap.GenerateBodyKeys: requires the key bank to have room for the body's keys, where Java throws on overflow.
- PhysicsObjects.CalculateConvexHull: takes a `fuel` bound on the gift-wrap steps and returns `None` when it runs out. The Java loop has no bound.
- SpriteBatches.SpriteRenderBatch.AddSprite: returns false on a full batch, where Java throws `ArrayIndexOutOfBoundsException`.

Text and encoding:

- JavaStrings.UpperAscii: folds ASCII letters only, where Java's `equalsIgnoreCase` also folds other Unicode letters (for example "ıdle"). `AnimationStates.Upper` has the same restriction.
- AnimationStates.FuzzyMatch: returns the first matching state, where Java's `findAny` on a sequential stream makes no promise of order.
- JavaText.Text: decodes one character per byte, where Java decodes UTF-8. Non-ASCII request bytes therefore read differently.
- GPUDevice.Label: an unknown code becomes a marked code, not LWJGL's `apiUnknownToken` text.

World loading and unloading:

- WorldLoading.WorldLoader.LoadSectors: takes the two corner sector keys directly. `UniformGrid.get_sector_for_point` is not part of this model.
- WorldLoading.WorldLoader.LoadSectors: `update_sector_metrics` (WorldLoader.java:114-116) and the editor's `queue_event` are not modelled.
- WorldLoading.WorldLoader.CacheGet: the cache keeps every batch. Its `getIfPresent` miss path and size-based eviction are not modelled.
- The loader and unloader threads, the world permit, the barrier and the queues' concurrency are not modelled. Each step runs as one sequential call.
- WorldUnloading.WorldUnloader.UnloadSectors: a `sectorFor` parameter stands in for the uniform grid's `get_sector_for_point`. The GPU transfers that fill the staging arrays are also parameters. It requires `last_counts` to hold at least one count, as the GPU counts array always does; Java would throw on an empty array.
- WorldUnloading.WorldUnloader.UnloadBroken: requires `last_counts` to hold at least seven counts, as the GPU counts array always does; Java would throw on a shorter array.

Player, inventory and state machines:

- PlayerControl.PlayerController.HandleInputStates: `snap`, the mouse position and the GPU creation of a placed block are not modelled. A placement is recorded in `placed`.
- PlayerControl.PlayerController.NewWay: the reads and writes of the GPU entity buffers in `update_player_state` are not modelled. The entity's data is a parameter, and the record to write back is the result.
- `old_way` (PlayerController.java:226-231) and `destroy` are not modelled. `old_way` is unused.
- Inventory.InventorySystem.UnloadCollected: collected items arrive as substances. `collect_substance` and the map from item type to substance are not part of this model.
- The editor's inventory event and the log messages of `InventorySystem` are not modelled.

Spatial map and core memory:

- SpatialMap: `buildKeyBank`, `buildKeyMap`, `findCandidatesEX` and `computeCandidatesEX` are not modelled. Bodies are a parameter, not the ECS component store.
- SpatialMap.SpatialMap.FindMatches: requires whole key pairs that name cells of the grid, and key-map ranges inside the key map. Java throws on a key slice of odd length or an out-of-range cell or offset.
- SpatialMap.SpatialMap.RebuildLocation: requires each cell's key-map range to lie inside the key map (`MapFits`), which the offsets of `calculateMapOffsets` satisfy (MapRangesDisjoint); Java's `rebuildLocationEX` would throw on a range outside the key map.
- `GPUCoreMemory.read_position`, `rotate_hull` and `destroy` are not modelled: they only launch kernels or read results back.
- EntityLoading: the `Container` class stands in for the sector container. It keeps one allocator of `SlotCounters` kind (`SlotCounters.Counters`) and the records of the objects created. The container's GPU-side implementation is not part of this model.
- Kernel launches and buffer work in `SectorController`, `SectorInput`, `SectorCompactor` and `GPUCoreMemory` are recorded in a `log`, not run. A scan's result is supplied by the caller.

Rendering and the editor:

- SpriteBatches: GL buffer set-up, shaders and `render()` are not modelled. A sprite's rotation comes as a `Turn` parameter (cosine and sine), because the trigonometry is library code.
- Hud: GL drawing, the glyph layout of `rebuild_hud` and `calculate_text_width` are not modelled. The inventory labels and the text boxes are.
- MeshRegistration: `generate_*_mesh` and the meshes' GPU references are not modelled. A mesh is a value of a type parameter.
- EditorRouting: sockets, the server and client threads, writing the SSE stream and the timing of `update_connection` are not modelled. The bytes a client sends are the input.
- AnimationSettings: `game/AnimationSettings.java` names `game.AnimationState`, and `physics/PlayerController.java` (used by PlayerControl.PlayerController.NewWay and PlayerControl.PlayerController.RunHandler) names `animation.AnimationState` and `animation.AnimationSettings.blend_time`. None of these three classes is part of this model. All three are taken to be `game/state/AnimationState.java`: its fourteen constants, its declaration order (which fixes the row order of the `cl_lookup_table` text and what `from_index` decodes) and its `blend_time` table (AnimationStates).
- MovementStates: `game/state/PlayerState.java` nests its own `MovementState` enum (lines 42-171): the same twelve constants in the same order, and a `process` whose branches are those of `game/state/MovementState.java`, without the animation field or the blend table. MovementStates models that logic once, after `MovementState.java`.

## Findings

| source | as written | input that shows it | evidently intended | confidence | as-written member | corrected member |
|---|---|---|---|---|---|---|
| src/main/java/com/controllerface/bvge/editor/StaticAsset.java:96-122 | The `Content-Length` value is written as `int_bytes(data.length)`. That is the UTF-8 byte pattern of the length read as a code point, not its decimal digits. | A 9-byte file is announced with the single byte 0x09 (TAB), not "9". No length below 2^31 is written as its decimal text. | The decimal digits of the body length, as HTTP/1.1 defines `Content-Length` (section 8.6 of RFC 9110). | not executed | StaticAssetResponses.WrittenContentLengthIsNotDecimal | StaticAssetResponses.IntendedContentLengthReadsBack |
| src/main/java/com/controllerface/bvge/gpu/GPU.java:934-941 | `init_cl` halves the maximum work-group size while the scan kernels' local buffers do not fit in the device's local memory. | A device that reports `CL_DEVICE_LOCAL_MEM_SIZE` 0: no group size fits, the size halves down to 0 and stays there, and the loop never ends. | Stop at the first halving that fits, with local memory taken to be positive (or fail on a device without local memory). | not executed | GPUDevice.NoHalvingFitsWithoutLocalMemory | GPUDevice.FittedIsFirstFittingHalving |
