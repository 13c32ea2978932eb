/**
 * Mesh assembly of src/voxel/render/mesh.rs: the chunk is copied with a
 * one-voxel border into a reusable scratch buffer, the greedy mesher (taken as
 * abstract input) yields quads per face, and each quad contributes four
 * vertices, six indices and four material entries to the mesh.
 */
module MeshAssembly {
  import opened Geometry
  import opened Voxels
  import opened Storage

  /** A face of `RIGHT_HANDED_Y_UP_CONFIG`, numbered in the order of its `faces` array. */
  datatype Face = Face(index: nat)

  /** `RIGHT_HANDED_Y_UP_CONFIG.faces`. */
  const FACES: seq<Face> := [Face(0), Face(1), Face(2), Face(3), Face(4), Face(5)]

  /** `UnorientedQuad`: its minimum corner in padded coordinates and its extent. */
  datatype Quad = Quad(minimum: UVec3, width: nat, height: nat)

  /**
   * block_mesh's per-face geometry (`quad_mesh_indices`, `quad_mesh_positions`,
   * `quad_mesh_normals`, `tex_coords`), abstract.
   */
  datatype FaceGeometry = FaceGeometry(
    indices: (Face, nat) -> seq<nat>,
    positions: (Face, Quad, real) -> seq<Vec3>,
    normals: Face -> seq<Vec3>,
    texCoords: (Face, Quad) -> seq<(real, real)>)

  /** Each quad has four vertices and six indices. */
  ghost predicate ValidGeometry(g: FaceGeometry) {
    && (forall f, base {:trigger g.indices(f, base)} :: |g.indices(f, base)| == 6)
    && (forall f, q, s {:trigger g.positions(f, q, s)} :: |g.positions(f, q, s)| == 4)
    && (forall f {:trigger g.normals(f)} :: |g.normals(f)| == 4)
    && (forall f, q {:trigger g.texCoords(f, q)} :: |g.texCoords(f, q)| == 4)
  }

  /** The vertex attributes and indices handed to the render mesh. */
  datatype MeshData = MeshData(
    positions: seq<Vec3>,
    normals: seq<Vec3>,
    uvs: seq<(real, real)>,
    materials: seq<nat>,
    indices: seq<nat>)

  const EMPTY_MESH: MeshData := MeshData([], [], [], [], [])

  /** The dimensions of the padded scratch buffer. */
  function Padded(dims: UVec3): UVec3 {
    UVec3(dims.x + 2, dims.y + 2, dims.z + 2)
  }

  /** `q` is a padded position whose unpadded position lies in `dims`. */
  predicate Interior(dims: UVec3, q: UVec3) {
    1 <= q.x <= dims.x && 1 <= q.y <= dims.y && 1 <= q.z <= dims.z
  }

  /** `minimum.map(|x| x - 1)`. */
  function Unpad(q: UVec3): UVec3
    requires q.x >= 1 && q.y >= 1 && q.z >= 1
  {
    UVec3(q.x - 1, q.y - 1, q.z - 1)
  }

  /** The quads of one group, each tagged with the face of its group. */
  function Tag(f: Face, qs: seq<Quad>): (r: seq<(Face, Quad)>)
    ensures |r| == |qs|
    ensures forall k :: 0 <= k < |qs| ==> r[k] == (f, qs[k])
  {
    seq(|qs|, k requires 0 <= k < |qs| => (f, qs[k]))
  }

  /** The quads of the first `n` groups, in the order the assembly loop consumes them. */
  function FaceQuads(groups: seq<seq<Quad>>, n: nat): seq<(Face, Quad)>
    requires n <= |groups| && n <= |FACES|
  {
    if n == 0 then [] else FaceQuads(groups, n - 1) + Tag(FACES[n - 1], groups[n - 1])
  }

  /** The material entry of a quad: the id of the source voxel under its minimum corner. */
  ghost function MaterialOf(b: VoxelBuffer, q: Quad): nat
    reads b.data
    requires b.Valid() && Interior(b.shape.dims, q.minimum)
  {
    AsMatId(b.VoxelAt(Unpad(q.minimum))) as nat
  }

  /** Every quad of every group lies over a voxel of the source buffer. */
  ghost predicate QuadsOverSource(dims: UVec3, groups: seq<seq<Quad>>) {
    forall i, j :: 0 <= i < |groups| && 0 <= j < |groups[i]| ==> Interior(dims, groups[i][j].minimum)
  }

  /** The emission of one quad onto a mesh built so far. */
  function EmitQuad(m: MeshData, f: Face, q: Quad, mat: nat, g: FaceGeometry, scale: real): MeshData {
    MeshData(
      m.positions + g.positions(f, q, scale),
      m.normals + g.normals(f),
      m.uvs + g.texCoords(f, q),
      m.materials + [mat, mat, mat, mat],
      m.indices + g.indices(f, |m.positions|))
  }

  /** The mesh produced by emitting the quads of `fq` in order. */
  ghost function BuildMesh(b: VoxelBuffer, fq: seq<(Face, Quad)>, g: FaceGeometry, scale: real): MeshData
    reads b.data
    requires b.Valid() && forall k :: 0 <= k < |fq| ==> Interior(b.shape.dims, fq[k].1.minimum)
  {
    if fq == [] then EMPTY_MESH
    else
      var last := fq[|fq| - 1];
      EmitQuad(BuildMesh(b, fq[..|fq| - 1], g, scale), last.0, last.1, MaterialOf(b, last.1), g, scale)
  }

  /** Four vertices and six indices per quad; all vertex attributes have equal length. */
  lemma {:induction false} BuildMeshLengths(b: VoxelBuffer, fq: seq<(Face, Quad)>, g: FaceGeometry, scale: real)
    requires b.Valid() && ValidGeometry(g)
    requires forall k :: 0 <= k < |fq| ==> Interior(b.shape.dims, fq[k].1.minimum)
    ensures var m := BuildMesh(b, fq, g, scale);
      && |m.positions| == 4 * |fq| && |m.normals| == 4 * |fq| && |m.uvs| == 4 * |fq|
      && |m.materials| == 4 * |fq| && |m.indices| == 6 * |fq|
  {
    if fq != [] {
      BuildMeshLengths(b, fq[..|fq| - 1], g, scale);
    }
  }

  /**
   * Quad `k` owns material entries 4k .. 4k+3, all equal to the id of the source
   * voxel under its minimum corner, and index entries 6k .. 6k+5, built from the
   * base 4k, the number of positions emitted before it.
   */
  lemma {:induction false} BuildMeshQuad(b: VoxelBuffer, fq: seq<(Face, Quad)>, g: FaceGeometry, scale: real, k: nat)
    requires b.Valid() && ValidGeometry(g)
    requires forall k :: 0 <= k < |fq| ==> Interior(b.shape.dims, fq[k].1.minimum)
    requires k < |fq|
    ensures var m := BuildMesh(b, fq, g, scale);
      && |m.materials| == 4 * |fq| && |m.indices| == 6 * |fq|
      && (forall i :: 4 * k <= i < 4 * k + 4 ==> m.materials[i] == MaterialOf(b, fq[k].1))
      && m.indices[6 * k .. 6 * k + 6] == g.indices(fq[k].0, 4 * k)
  {
    BuildMeshLengths(b, fq, g, scale);
    var prefix := fq[..|fq| - 1];
    BuildMeshLengths(b, prefix, g, scale);
    var m0 := BuildMesh(b, prefix, g, scale);
    var m := BuildMesh(b, fq, g, scale);
    if k < |fq| - 1 {
      BuildMeshQuad(b, prefix, g, scale, k);
      assert prefix[k] == fq[k];
      assert m.indices[6 * k .. 6 * k + 6] == m0.indices[6 * k .. 6 * k + 6];
    } else {
      assert m.indices[6 * k .. 6 * k + 6] == g.indices(fq[k].0, |m0.positions|);
    }
  }

  /** Emitting one more quad extends the mesh by that quad's emission. */
  lemma BuildMeshSnoc(b: VoxelBuffer, fq: seq<(Face, Quad)>, x: (Face, Quad), g: FaceGeometry, scale: real)
    requires b.Valid() && PrefixOver(b, fq) && Interior(b.shape.dims, x.1.minimum)
    ensures PrefixOver(b, fq + [x])
    ensures BuildMesh(b, fq + [x], g, scale) == EmitQuad(BuildMesh(b, fq, g, scale), x.0, x.1, MaterialOf(b, x.1), g, scale)
  {
    assert (fq + [x])[..|fq|] == fq;
  }

  /** When every quad lies over the source, so does every prefix of the face-ordered quads. */
  lemma {:induction false} FaceQuadsOverSource(b: VoxelBuffer, groups: seq<seq<Quad>>, n: nat)
    requires |groups| == |FACES| && n <= |FACES| && QuadsOverSource(b.shape.dims, groups)
    ensures FaceQuadsOver(b, groups, n)
  {
    if n > 0 {
      FaceQuadsOverSource(b, groups, n - 1);
      var a: seq<(Face, Quad)>, t: seq<(Face, Quad)> := FaceQuads(groups, n - 1), Tag(FACES[n - 1], groups[n - 1]);
      forall k | 0 <= k < |a + t|
        ensures Interior(b.shape.dims, (a + t)[k].1.minimum)
      {
        if k >= |a| {
          assert (a + t)[k] == t[k - |a|];
        }
      }
    }
  }

  /** The mesh depends on the buffer only through its shape and its voxels. */
  lemma {:induction false} BuildMeshSameVoxels(b: VoxelBuffer, c: VoxelBuffer, fq: seq<(Face, Quad)>, g: FaceGeometry, scale: real)
    requires b.Valid() && c.Valid() && b.shape == c.shape && b.data[..] == c.data[..] && PrefixOver(b, fq)
    ensures BuildMesh(b, fq, g, scale) == BuildMesh(c, fq, g, scale)
  {
    if fq != [] {
      BuildMeshSameVoxels(b, c, fq[..|fq| - 1], g, scale);
      var p := Unpad(fq[|fq| - 1].1.minimum);
      assert b.VoxelAt(p) == b.data[..][b.shape.linearize(p)];
    }
  }

  /** The mesh `mesh_buffer` builds for a buffer from its greedy quads. */
  ghost function ChunkMesh(b: VoxelBuffer, groups: seq<seq<Quad>>, g: FaceGeometry, scale: real): MeshData
    reads b.data
    requires b.Valid() && |groups| == |FACES| && QuadsOverSource(b.shape.dims, groups)
  {
    FaceQuadsOverSource(b, groups, |FACES|);
    BuildMesh(b, FaceQuads(groups, |FACES|), g, scale)
  }

  /**
   * `MeshBuffers`: the padded scratch buffer and the greedy mesher's buffer,
   * reused across meshing calls. The scratch border is never written, so it stays
   * empty.
   */
  class MeshBuffers {
    const sourceDims: UVec3
    const scratch: VoxelBuffer
    var greedy: seq<seq<Quad>>

    ghost predicate Valid()
      reads scratch.data
    {
      && scratch.Valid()
      && scratch.shape.dims == Padded(sourceDims)
      && forall q :: scratch.shape.InBounds(q) && !Interior(sourceDims, q) ==> scratch.VoxelAt(q) == EMPTY_VOXEL
    }

    /**
     * `MeshBuffers::new`: the scratch shape is the source shape plus two on every
     * axis (its linearisation, a `RuntimeShape`, is a parameter) and every scratch
     * cell starts empty.
     */
    constructor (sourceShape: Shape, paddedShape: Shape)
      requires ValidShape(paddedShape) && paddedShape.dims == Padded(sourceShape.dims)
      ensures Valid() && fresh(scratch) && fresh(scratch.data)
      ensures sourceDims == sourceShape.dims && scratch.shape == paddedShape && greedy == []
      ensures forall q :: paddedShape.InBounds(q) ==> scratch.VoxelAt(q) == EMPTY_VOXEL
    {
      sourceDims := sourceShape.dims;
      scratch := new VoxelBuffer.NewEmpty(paddedShape);
      greedy := [];
    }
  }

  /**
   * The padding copy (ndcopy's `copy3` to offset [1; 3]): source cell p lands at
   * scratch cell p + (1, 1, 1); no other scratch cell changes.
   */
  method CopyPadded(src: VoxelBuffer, mb: MeshBuffers)
    requires src.Valid() && mb.Valid() && mb.sourceDims == src.shape.dims
    requires mb.scratch.data != src.data
    modifies mb.scratch.data
    ensures mb.Valid()
    ensures forall p :: src.shape.InBounds(p) ==> mb.scratch.VoxelAt(p.Add(ONE)) == src.VoxelAt(p)
    ensures forall q :: mb.scratch.shape.InBounds(q) && !Interior(src.shape.dims, q) ==>
              mb.scratch.VoxelAt(q) == old(mb.scratch.VoxelAt(q))
  {
    var s := src.shape;
    var dst := mb.scratch;
    var i := 0;
    while i < src.data.Length
      invariant 0 <= i <= src.data.Length
      invariant dst.Valid()
      invariant forall p :: s.InBounds(p) && s.linearize(p) < i ==> dst.VoxelAt(p.Add(ONE)) == src.VoxelAt(p)
      invariant forall q :: dst.shape.InBounds(q) && !(Interior(s.dims, q) && s.linearize(Unpad(q)) < i) ==>
                  dst.VoxelAt(q) == old(dst.VoxelAt(q))
    {
      var p := s.delinearize(i);
      dst.Set(p.Add(ONE), src.data[i]);
      i := i + 1;
    }
  }

  /**
   * `mesh_buffer`: pad-copy the chunk, take the greedy quads, and emit every quad
   * of every group, groups in the order of `FACES`. The result is the mesh
   * `BuildMesh` describes: four vertices and six indices per quad, the index base
   * of a quad equal to the number of positions before it, and the material of a
   * quad read from the unpadded source voxel under its minimum corner.
   */
  method MeshBuffer(buffer: VoxelBuffer, mb: MeshBuffers, scale: real, groups: seq<seq<Quad>>, g: FaceGeometry)
    returns (mesh: MeshData)
    requires buffer.Valid() && mb.Valid() && mb.sourceDims == buffer.shape.dims
    requires mb.scratch.data != buffer.data
    requires |groups| == |FACES| && QuadsOverSource(buffer.shape.dims, groups)
    requires ValidGeometry(g)
    modifies mb, mb.scratch.data
    ensures mb.Valid() && mb.greedy == groups
    ensures forall p :: buffer.shape.InBounds(p) ==> mb.scratch.VoxelAt(p.Add(ONE)) == buffer.VoxelAt(p)
    ensures FaceQuadsOver(buffer, groups, |FACES|) && mesh == BuildMesh(buffer, FaceQuads(groups, |FACES|), g, scale)
    ensures var n := |FaceQuads(groups, |FACES|)|;
      |mesh.positions| == |mesh.normals| == |mesh.uvs| == |mesh.materials| == 4 * n && |mesh.indices| == 6 * n
  {
    mb.greedy := [];
    CopyPadded(buffer, mb);
    mb.greedy := groups;

    mesh := EmitAll(buffer, groups, g, scale);
  }

  /** The outer loop of `mesh_buffer`: every group, zipped with `FACES`. */
  method EmitAll(buffer: VoxelBuffer, groups: seq<seq<Quad>>, g: FaceGeometry, scale: real)
    returns (mesh: MeshData)
    requires buffer.Valid() && |groups| == |FACES| && QuadsOverSource(buffer.shape.dims, groups)
    requires ValidGeometry(g)
    ensures FaceQuadsOver(buffer, groups, |FACES|) && mesh == BuildMesh(buffer, FaceQuads(groups, |FACES|), g, scale)
    ensures var n := |FaceQuads(groups, |FACES|)|;
      |mesh.positions| == |mesh.normals| == |mesh.uvs| == |mesh.materials| == 4 * n && |mesh.indices| == 6 * n
  {
    mesh := EMPTY_MESH;
    var i := 0;
    while i < |FACES|
      invariant 0 <= i <= |FACES|
      invariant FaceQuadsOver(buffer, groups, i)
      invariant mesh == BuildMesh(buffer, FaceQuads(groups, i), g, scale)
    {
      assert forall j :: 0 <= j < |groups[i]| ==> Interior(buffer.shape.dims, groups[i][j].minimum);
      mesh := EmitGroup(buffer, mesh, FaceQuads(groups, i), FACES[i], groups[i], g, scale);
      i := i + 1;
    }
    BuildMeshLengths(buffer, FaceQuads(groups, |FACES|), g, scale);
  }

  /** The inner loop of `mesh_buffer`: the quads of one group, in order. */
  method EmitGroup(buffer: VoxelBuffer, mesh0: MeshData, ghost fq: seq<(Face, Quad)>, face: Face, group: seq<Quad>,
                   g: FaceGeometry, scale: real)
    returns (mesh: MeshData)
    requires buffer.Valid() && PrefixOver(buffer, fq) && mesh0 == BuildMesh(buffer, fq, g, scale)
    requires forall j :: 0 <= j < |group| ==> Interior(buffer.shape.dims, group[j].minimum)
    ensures PrefixOver(buffer, fq + Tag(face, group))
    ensures mesh == BuildMesh(buffer, fq + Tag(face, group), g, scale)
  {
    mesh := mesh0;
    var j := 0;
    assert fq + Tag(face, group[..0]) == fq;
    while j < |group|
      invariant 0 <= j <= |group|
      invariant PrefixOver(buffer, fq + Tag(face, group[..j]))
      invariant mesh == BuildMesh(buffer, fq + Tag(face, group[..j]), g, scale)
    {
      var quad := group[j];
      var mat := AsMatId(buffer.VoxelAt(Unpad(quad.minimum))) as nat;
      assert fq + Tag(face, group[..j + 1]) == (fq + Tag(face, group[..j])) + [(face, quad)];
      BuildMeshSnoc(buffer, fq + Tag(face, group[..j]), (face, quad), g, scale);
      mesh := EmitQuad(mesh, face, quad, mat, g, scale);
      j := j + 1;
    }
    assert group[..j] == group;
  }

  /** Every quad among the first `n` groups lies over a source voxel. */
  ghost predicate FaceQuadsOver(b: VoxelBuffer, groups: seq<seq<Quad>>, n: nat)
    requires n <= |groups| && n <= |FACES|
  {
    PrefixOver(b, FaceQuads(groups, n))
  }

  ghost predicate PrefixOver(b: VoxelBuffer, fq: seq<(Face, Quad)>) {
    forall k :: 0 <= k < |fq| ==> Interior(b.shape.dims, fq[k].1.minimum)
  }
}
