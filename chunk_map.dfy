/**
 * `ChunkMap`: the chunk key -> voxel buffer store used by terrain generation,
 * meshing, destruction and block edits. Each stored buffer is owned by the map,
 * so no two keys share a data array.
 */
module ChunkMaps {
  import opened Geometry
  import opened Storage
  import opened Wrappers
  import opened Voxels

  class ChunkMap {
    var buffers: map<IVec3, VoxelBuffer>

    /** Every buffer is a well-formed chunk buffer and no two keys share storage. */
    ghost predicate Valid()
      reads this
    {
      && (forall k :: k in buffers ==> buffers[k].Valid() && IsChunkShape(buffers[k].shape))
      && (forall k1, k2 :: k1 in buffers && k2 in buffers && k1 != k2 ==> buffers[k1].data != buffers[k2].data)
    }

    /** The arrays of the stored buffers: what an edit through the map may write. */
    ghost function Arrays(): set<object>
      reads this
    {
      set k | k in buffers :: buffers[k].data
    }

    /** The voxels of every stored chunk. */
    ghost function Contents(): map<IVec3, seq<Voxel>>
      reads this, Arrays()
    {
      map k | k in buffers :: buffers[k].data[..]
    }

    /** `ChunkMap::new`: no chunk stored. */
    constructor ()
      ensures Valid() && buffers == map[]
    {
      buffers := map[];
    }

    /** `buffer_at` / `buffer_at_mut`: the buffer stored at `key`, if any. */
    function BufferAt(key: IVec3): (r: Option<VoxelBuffer>)
      reads this
      ensures r.Some? <==> key in buffers
      ensures r.Some? ==> r.value == buffers[key]
    {
      if key in buffers then Some(buffers[key]) else None
    }

    /**
     * `insert`: stores `b` at `key`, replacing any previous buffer; `b` is moved
     * into the map, so it shares storage with no other stored buffer.
     */
    method Insert(key: IVec3, b: VoxelBuffer)
      requires Valid() && b.Valid() && IsChunkShape(b.shape)
      requires forall k :: k in buffers && k != key ==> buffers[k].data != b.data
      modifies this
      ensures Valid() && buffers == old(buffers)[key := b]
    {
      buffers := buffers[key := b];
    }

    /** `remove`: drops the buffer at `key`, if any. */
    method Remove(key: IVec3)
      requires Valid()
      modifies this
      ensures Valid() && buffers == old(buffers) - {key}
    {
      buffers := buffers - {key};
    }
  }
}
