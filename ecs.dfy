/**
 * The part of the bevy world the chunk systems touch: chunk entities and the
 * components attached to them. Each component kind is a map from entity to
 * value; an entity is live while it carries its `Chunk` component.
 */
module Ecs {
  import opened Geometry
  import opened Storage
  import opened MeshAssembly

  datatype Entity = Entity(id: nat)

  /**
   * The components `prepare_chunks` attaches: the mesh asset, the transform's
   * translation, the visibility and the bounding box.
   */
  datatype RenderBundle = RenderBundle(mesh: MeshData, translation: Vec3, hidden: bool, aabbMin: Vec3, aabbMax: Vec3)

  class World {
    /** The id the next spawned entity receives. */
    var next: nat
    /** `Chunk(key)` of every live chunk entity. */
    var chunk: map<Entity, IVec3>
    /** `TerrainGenTask`: the buffer the pending generation task yields. */
    var genTask: map<Entity, VoxelBuffer>
    /** `ChunkMeshingTask`: the mesh the pending meshing task yields. */
    var meshTask: map<Entity, MeshData>
    /** The render components of prepared chunks. */
    var render: map<Entity, RenderBundle>

    /** Components hang only on live entities, and every live id was handed out. */
    ghost predicate Valid()
      reads this
    {
      && genTask.Keys <= chunk.Keys && meshTask.Keys <= chunk.Keys && render.Keys <= chunk.Keys
      && forall e :: e in chunk ==> e.id < next
    }

    constructor ()
      ensures Valid() && next == 0
      ensures chunk == map[] && genTask == map[] && meshTask == map[] && render == map[]
    {
      next := 0;
      chunk := map[];
      genTask := map[];
      meshTask := map[];
      render := map[];
    }

    /** `cmds.spawn((Chunk(key), ..)).id()`: a fresh entity carrying `Chunk(key)`. */
    method Spawn(key: IVec3) returns (e: Entity)
      requires Valid()
      modifies this
      ensures Valid() && e == Entity(old(next)) && e !in old(chunk) && next == old(next) + 1
      ensures chunk == old(chunk)[e := key]
      ensures genTask == old(genTask) && meshTask == old(meshTask) && render == old(render)
    {
      e := Entity(next);
      chunk := chunk[e := key];
      next := next + 1;
    }

    /** `despawn`: the entity and all its components go away. */
    method Despawn(e: Entity)
      requires Valid()
      modifies this
      ensures Valid() && next == old(next)
      ensures chunk == old(chunk) - {e} && genTask == old(genTask) - {e}
      ensures meshTask == old(meshTask) - {e} && render == old(render) - {e}
    {
      chunk := chunk - {e};
      genTask := genTask - {e};
      meshTask := meshTask - {e};
      render := render - {e};
    }
  }
}
