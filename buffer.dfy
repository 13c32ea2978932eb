/**
 * `VoxelBuffer` of src/core/storage/buffer.rs: a dense 3-D array of voxels of a
 * fixed shape. The shape's linearisation (ndshape's `linearize`) is abstract:
 * any map that is a bijection between the in-bounds positions and [0, size).
 */
module Storage {
  import opened Geometry
  import opened Voxels

  /** A 3-D shape with its linearisation and the inverse of it. */
  datatype Shape = Shape(dims: UVec3, linearize: UVec3 -> nat, delinearize: nat -> UVec3) {
    function Size(): nat { dims.x * dims.y * dims.z }
    predicate InBounds(p: UVec3) { p.x < dims.x && p.y < dims.y && p.z < dims.z }
  }

  /** The linearisation is a bijection between in-bounds positions and [0, Size()). */
  ghost predicate ValidShape(s: Shape) {
    && (forall p {:trigger s.linearize(p)} :: s.InBounds(p) ==>
          s.linearize(p) < s.Size() && s.delinearize(s.linearize(p)) == p)
    && (forall i: nat {:trigger s.delinearize(i)} :: i < s.Size() ==>
          s.InBounds(s.delinearize(i)) && s.linearize(s.delinearize(i)) == i)
  }

  /** Distinct in-bounds positions occupy distinct cells. */
  lemma LinearizeInjective(s: Shape, p: UVec3, q: UVec3)
    requires ValidShape(s) && s.InBounds(p) && s.InBounds(q)
    ensures s.linearize(p) == s.linearize(q) ==> p == q
  {
  }

  /** Chunk dimensions, src/voxel/world/mod.rs. */
  const CHUNK_LENGTH: nat := 32
  const CHUNK_HEIGHT: nat := 256
  const CHUNK_DIMS: UVec3 := UVec3(CHUNK_LENGTH, CHUNK_HEIGHT, CHUNK_LENGTH)
  const CHUNK_SIZE: nat := CHUNK_LENGTH * CHUNK_HEIGHT * CHUNK_LENGTH

  /** `ChunkShape = ConstShape3u32<32, 256, 32>`. */
  ghost predicate IsChunkShape(s: Shape) {
    s.dims == CHUNK_DIMS && ValidShape(s)
  }

  /** `ilattice::Extent<UVec3>`: the box [minimum, minimum + shape). */
  datatype Extent = Extent(minimum: UVec3, shape: UVec3) {
    predicate Contains(p: UVec3) {
      && minimum.x <= p.x < minimum.x + shape.x
      && minimum.y <= p.y < minimum.y + shape.y
      && minimum.z <= p.z < minimum.z + shape.z
    }
    /** The box lies inside a buffer of dimensions `dims`. */
    predicate Within(dims: UVec3) {
      minimum.x + shape.x <= dims.x && minimum.y + shape.y <= dims.y && minimum.z + shape.z <= dims.z
    }
  }

  class VoxelBuffer {
    const shape: Shape
    const data: array<Voxel>

    /** The array holds exactly one voxel per position of the shape. */
    ghost predicate Valid() {
      ValidShape(shape) && data.Length == shape.Size()
    }

    /** `VoxelBuffer::new`: every cell holds `initial`. */
    constructor New(shape: Shape, initial: Voxel)
      requires ValidShape(shape)
      ensures Valid() && this.shape == shape && fresh(data)
      ensures data[..] == seq(shape.Size(), _ => initial)
      ensures forall p :: shape.InBounds(p) ==> VoxelAt(p) == initial
    {
      this.shape := shape;
      data := new Voxel[shape.Size()](_ => initial);
    }

    /** `VoxelBuffer::new_empty`: every cell holds the default voxel. */
    constructor NewEmpty(shape: Shape)
      requires ValidShape(shape)
      ensures Valid() && this.shape == shape && fresh(data)
      ensures data[..] == seq(shape.Size(), _ => Default())
      ensures forall p :: shape.InBounds(p) ==> VoxelAt(p) == EMPTY_VOXEL
    {
      this.shape := shape;
      data := new Voxel[shape.Size()](_ => Default());
    }

    /**
     * The buffer the deserialiser builds: the decoded data and the chunk shape,
     * with no check that the two agree in size.
     */
    constructor FromData(shape: Shape, contents: seq<Voxel>)
      ensures this.shape == shape && fresh(data) && data[..] == contents
      ensures ValidShape(shape) ==> (Valid() <==> |contents| == shape.Size())
    {
      this.shape := shape;
      data := new Voxel[|contents|](i requires 0 <= i < |contents| => contents[i]);
    }

    /** `voxel_at`. */
    function VoxelAt(p: UVec3): Voxel
      requires Valid() && shape.InBounds(p)
      reads data
    {
      data[shape.linearize(p)]
    }

    /** `*voxel_at_mut(p) = v`: exactly the cell at `p` changes. */
    method Set(p: UVec3, v: Voxel)
      requires Valid() && shape.InBounds(p)
      modifies data
      ensures data[..] == old(data[..])[shape.linearize(p) := v]
      ensures VoxelAt(p) == v
      ensures forall q :: shape.InBounds(q) && q != p ==> VoxelAt(q) == old(VoxelAt(q))
    {
      data[shape.linearize(p)] := v;
    }

    /** `slice`. */
    function Slice(): seq<Voxel>
      reads data
    {
      data[..]
    }

    /** `fill_extent` (ndcopy's `fill3`): the cells of `e` become `v`, no other cell changes. */
    method FillExtent(e: Extent, v: Voxel)
      requires Valid() && e.Within(shape.dims)
      modifies data
      ensures forall p :: shape.InBounds(p) ==>
                VoxelAt(p) == if e.Contains(p) then v else old(VoxelAt(p))
    {
      var i := 0;
      while i < data.Length
        invariant 0 <= i <= data.Length
        invariant forall j :: 0 <= j < i ==>
                    data[j] == if e.Contains(shape.delinearize(j)) then v else old(data[j])
        invariant forall j :: i <= j < data.Length ==> data[j] == old(data[j])
      {
        if e.Contains(shape.delinearize(i)) {
          data[i] := v;
        }
        i := i + 1;
      }
    }

    /** The derived `Clone`: a fresh buffer with the same shape and contents. */
    method Clone() returns (c: VoxelBuffer)
      requires Valid()
      ensures fresh(c) && fresh(c.data) && c.Valid()
      ensures c.shape == shape && c.data[..] == data[..]
      ensures forall p :: shape.InBounds(p) ==> c.VoxelAt(p) == VoxelAt(p)
    {
      c := new VoxelBuffer.FromData(shape, data[..]);
    }
  }
}
