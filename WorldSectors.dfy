/**
 * The values the world loader and the world unloader exchange
 * (game/world/WorldLoader.java, game/world/WorldUnloader.java): sector
 * keys, the records an unloaded entity is kept as, the entity batches that
 * hold them, and the sector cache and the two queues both systems share.
 */
module WorldSectors {
  import UnorderedCoreBuffers

  /** A sector key: the sector's column and row in the uniform grid. */
  datatype Sector = Sector(x: int, y: int)

  /*
   * The unloaded records, with the fields in the order WorldUnloader passes
   * them to their constructors. (The older load_entity path of
   * PhysicsObjects reads an earlier shape of these records; that shape is
   * the one in module EntityLoading.)
   */

  /** An entity bone: its 16-float matrix, its bone reference and its parent's id. */
  datatype UnloadedEntityBone = UnloadedEntityBone(bone: seq<real>, referenceId: int, parentId: int)

  /** A hull bone: its 16-float matrix, its bind pose and its inverse bind pose. */
  datatype UnloadedHullBone = UnloadedHullBone(bone: seq<real>, bindId: int, invBindId: int)

  datatype UnloadedPoint = UnloadedPoint(x: real, y: real, z: real, w: real,
                                         boneTableX: int, boneTableY: int, boneTableZ: int, boneTableW: int,
                                         vertexReference: int, hullIndex: int,
                                         hitCount: UnorderedCoreBuffers.Short, flags: int)

  /** An edge; its end points are positions in its hull's point list. */
  datatype UnloadedEdge = UnloadedEdge(p1: int, p2: int, length: real, flags: int)

  datatype UnloadedHull = UnloadedHull(x: real, y: real, z: real, w: real,
                                       scaleX: real, scaleY: real, rotationX: real, rotationY: real,
                                       friction: real, restitution: real, integrity: int,
                                       meshId: int, entityId: int, uvOffset: int, flags: int,
                                       points: seq<UnloadedPoint>, edges: seq<UnloadedEdge>,
                                       bones: seq<UnloadedHullBone>)

  /** An entity; its root hull is a position in its own hull list. */
  datatype UnloadedEntity = UnloadedEntity(x: real, y: real, z: real, w: real,
                                           animTimeX: real, animTimeY: real,
                                           prevTimeX: real, prevTimeY: real,
                                           motionStateX: UnorderedCoreBuffers.Short,
                                           motionStateY: UnorderedCoreBuffers.Short,
                                           animLayerX: int, animLayerY: int,
                                           animPrevX: int, animPrevY: int,
                                           modelId: int, modelTransform: int,
                                           mass: real, rootHull: int,
                                           entityType: int, flags: int,
                                           hulls: seq<UnloadedHull>, bones: seq<UnloadedEntityBone>)

  /**
   * One thing a batch will create when it is loaded, in the order it was
   * added: a stored unloaded entity, or a block or shard spawned from a broken
   * object. Of new_block's and new_shard's arguments the fixed ones are not
   * recorded; substance is the broken object's type index.
   */
  datatype Spawn =
    | Stored(entity: UnloadedEntity)
    | Block(x: real, y: real, size: real, flags: int, substance: int)
    | Shard(spike: bool, flip: bool, x: real, y: real, size: real, flags: int, substance: int)

  /** A physics entity batch: what it will create, in order. */
  datatype Batch = Batch(spawns: seq<Spawn>)

  const EmptyBatch: Batch := Batch([])

  /**
   * The objects the loader and the unloader are both handed: the sector
   * cache, the queue of batches waiting to be loaded, and the queue of
   * sectors waiting to be unloaded.
   */
  class Channels {
    var sector_cache: map<Sector, Batch>
    var load_queue: seq<Batch>
    var unload_queue: seq<Sector>

    constructor()
      ensures sector_cache == map[] && load_queue == [] && unload_queue == []
    {
      sector_cache := map[];
      load_queue := [];
      unload_queue := [];
    }
  }
}
