/**
 * MeshRegistry (geometry/MeshRegistry.java): the registry of loaded meshes.
 * One counter hands out mesh ids: the six built-in meshes take the first
 * six while the registry initialises, in declaration order, and every mesh
 * registered afterwards under a "model:mesh" key takes the next one. A key
 * registered twice is refused with an exception.
 *
 * The registry's static state is one object here. The meshes themselves
 * (their vertices, faces and GPU references) are values of a type
 * parameter: building them is not part of this model.
 */
module MeshRegistration {
  import opened Wrappers

  /** The number of built-in meshes, which take the ids 0 to 5. */
  const BuiltInCount: int := 6

  /** The key a mesh is registered under: the model's name, a colon, the mesh's name. */
  function MeshKey(model_name: string, mesh_name: string): (key: string)
    ensures |key| == |model_name| + 1 + |mesh_name|
    ensures key[..|model_name|] == model_name && key[|model_name|] == ':' && key[|model_name| + 1..] == mesh_name
  {
    model_name + ":" + mesh_name
  }

  /** The message of the exception a second registration under the same key throws. */
  function DuplicateMessage(key: string): string
  {
    "mesh: " + key + "already registered."
  }

  /**
   * The key joins the two names without escaping the colon, so two
   * different (model, mesh) pairs can share a key, and the second of them
   * is refused as a duplicate.
   */
  lemma KeysOfDifferentPairsCanCoincide()
    ensures ("a:b", "c") != ("a", "b:c") && MeshKey("a:b", "c") == MeshKey("a", "b:c")
  {
    assert MeshKey("a:b", "c") == "a:b:c";
    assert MeshKey("a", "b:c") == "a:b:c";
  }

  class MeshRegistry<Mesh> {
    /** The next id to hand out (`next_mesh_index`). */
    var next_mesh_index: int
    /** The meshes by id (`loaded_meshes`). */
    var loaded_meshes: map<int, Mesh>
    /** The ids of the registered meshes by key (`mesh_index_map`). */
    var mesh_index_map: map<string, int>

    const circle_mesh: int
    const r_shard_mesh: int
    const l_shard_mesh: int
    const spike_mesh: int
    const line_mesh: int
    const block_mesh: int

    /**
     * Every id in use is below the next one; the built-in ids are 0 to 5;
     * every registered key names a loaded mesh with an id of its own, past
     * the built-in ones.
     */
    ghost predicate Valid()
      reads this
    {
      && next_mesh_index >= BuiltInCount
      && circle_mesh == 0 && r_shard_mesh == 1 && l_shard_mesh == 2
      && spike_mesh == 3 && line_mesh == 4 && block_mesh == 5
      && (forall id :: id in loaded_meshes ==> 0 <= id < next_mesh_index)
      && (forall key :: key in mesh_index_map ==>
            BuiltInCount <= mesh_index_map[key] < next_mesh_index && mesh_index_map[key] in loaded_meshes)
      && (forall key1, key2 :: key1 in mesh_index_map && key2 in mesh_index_map && key1 != key2 ==>
            mesh_index_map[key1] != mesh_index_map[key2])
    }

    /** The class initialiser: the six built-in ids are taken from the counter in declaration order. */
    constructor()
      ensures Valid()
      ensures next_mesh_index == BuiltInCount
      ensures loaded_meshes == map[] && mesh_index_map == map[]
    {
      // the six `getAndIncrement` calls of the static fields, in order
      circle_mesh := 0;
      r_shard_mesh := 1;
      l_shard_mesh := 2;
      spike_mesh := 3;
      line_mesh := 4;
      block_mesh := 5;
      next_mesh_index := 6;
      loaded_meshes := map[];
      mesh_index_map := map[];
    }

    /** `init`: each built-in mesh is loaded under its own id. */
    method Init(circle: Mesh, r_shard: Mesh, l_shard: Mesh, spike: Mesh, line: Mesh, block: Mesh)
      requires Valid()
      modifies this`loaded_meshes
      ensures Valid()
      ensures loaded_meshes == old(loaded_meshes)[circle_mesh := circle][r_shard_mesh := r_shard]
                               [l_shard_mesh := l_shard][spike_mesh := spike][line_mesh := line][block_mesh := block]
    {
      Put(circle_mesh, circle);
      Put(r_shard_mesh, r_shard);
      Put(l_shard_mesh, l_shard);
      Put(spike_mesh, spike);
      Put(line_mesh, line);
      Put(block_mesh, block);
    }

    /** `get_mesh_by_index`: the mesh loaded under an id, or none (Java's null). */
    function GetMeshByIndex(index: int): (r: Option<Mesh>)
      reads this
      ensures r.Some? <==> index in loaded_meshes
      ensures r.Some? ==> r.value == loaded_meshes[index]
    {
      if index in loaded_meshes then Some(loaded_meshes[index]) else None
    }

    /**
     * `register_mesh(model_name, mesh_name, mesh)`: a key already
     * registered is refused and nothing changes; otherwise the mesh takes
     * the next id, an id no mesh had and above every id registered before,
     * and is found under it afterwards.
     */
    method RegisterMesh(model_name: string, mesh_name: string, mesh: Mesh) returns (r: Result<int>)
      requires Valid()
      modifies this`next_mesh_index, this`mesh_index_map, this`loaded_meshes
      ensures Valid()
      ensures MeshKey(model_name, mesh_name) in old(mesh_index_map) ==>
                r == Err(DuplicateMessage(MeshKey(model_name, mesh_name)))
                && next_mesh_index == old(next_mesh_index)
                && mesh_index_map == old(mesh_index_map) && loaded_meshes == old(loaded_meshes)
      ensures MeshKey(model_name, mesh_name) !in old(mesh_index_map) ==>
                && r == Ok(old(next_mesh_index))
                && next_mesh_index == old(next_mesh_index) + 1
                && mesh_index_map == old(mesh_index_map)[MeshKey(model_name, mesh_name) := r.value]
                && loaded_meshes == old(loaded_meshes)[r.value := mesh]
      ensures r.Ok? ==> r.value !in old(loaded_meshes)
      ensures r.Ok? ==> forall key :: key in old(mesh_index_map) ==> old(mesh_index_map)[key] < r.value
      ensures r.Ok? ==> GetMeshByIndex(r.value) == Some(mesh)
    {
      var mesh_key := MeshKey(model_name, mesh_name);
      if mesh_key in mesh_index_map {
        return Err(DuplicateMessage(mesh_key));
      }
      var mesh_id := next_mesh_index;
      next_mesh_index := next_mesh_index + 1;
      mesh_index_map := mesh_index_map[mesh_key := mesh_id];
      Put(mesh_id, mesh);
      r := Ok(mesh_id);
    }

    /** The private `register_mesh(id, mesh)`: the mesh is loaded under the id. */
    method Put(id: int, mesh: Mesh)
      modifies this`loaded_meshes
      ensures loaded_meshes == old(loaded_meshes)[id := mesh]
    {
      loaded_meshes := loaded_meshes[id := mesh];
    }
  }

  /**
   * Registering two meshes under different keys gives them different ids,
   * the second above the first, and each is found under its own id.
   */
  method RegisterTwo<Mesh>(registry: MeshRegistry<Mesh>, m1: string, n1: string, a: Mesh, m2: string, n2: string, b: Mesh)
    returns (first: Result<int>, second: Result<int>)
    requires registry.Valid()
    requires MeshKey(m1, n1) !in registry.mesh_index_map && MeshKey(m2, n2) !in registry.mesh_index_map
    requires MeshKey(m1, n1) != MeshKey(m2, n2)
    modifies registry
    ensures first.Ok? && second.Ok? && first.value < second.value
    ensures registry.GetMeshByIndex(first.value) == Some(a) && registry.GetMeshByIndex(second.value) == Some(b)
  {
    first := registry.RegisterMesh(m1, n1, a);
    second := registry.RegisterMesh(m2, n2, b);
  }
}
