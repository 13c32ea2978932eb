/**
 * Block edits of the player controller (src/voxel/world/player.rs): a right
 * click places the selected material in front of the face the crosshair hits,
 * a left click turns the hit block into air. Both resolve the hit to a chunk
 * key and a local cell, write through the chunk map and mark the chunk dirty.
 * The ray cast is an input (`Hit`); f32 arithmetic is modelled on `real`.
 */
module Player {
  import opened Geometry
  import opened Wrappers
  import opened Voxels
  import opened Storage
  import opened ChunkMaps
  import Chunks
  import Meshing

  const U32_MAX: int := 0xFFFF_FFFF

  /** Rust's `f32 as u32`: truncation towards zero, saturating at both ends. */
  function AsU32Sat(v: real): (n: nat)
    ensures n <= U32_MAX
    ensures v < 1.0 ==> n == 0
    ensures 0.0 <= v < (U32_MAX + 1) as real ==> n as real <= v < n as real + 1.0
    ensures v >= U32_MAX as real ==> n == U32_MAX
  {
    if v < 0.0 then 0
    else if v.Floor > U32_MAX then U32_MAX
    else v.Floor
  }

  /** The first ray-cast intersection under the crosshair. */
  datatype Hit = Hit(position: Vec3, normal: Vec3, distance: real)

  /** `in_range_hit`: the hit's position and normal when it is closer than 10 units. */
  function InRangeHit(hit: Option<Hit>): (r: Option<(Vec3, Vec3)>)
    ensures r.Some? <==> hit.Some? && hit.value.distance < 10.0
    ensures r.Some? ==> r.value == (hit.value.position, hit.value.normal)
  {
    match hit
    case Some(h) => if h.distance < 10.0 then Some((h.position, h.normal)) else None
    case None => None
  }

  /** The chunk and the local cell an edit writes. */
  datatype Target = Target(key: IVec3, cell: UVec3)

  /** The point half a block out of the hit face, or half a block into it (`sign` -1). */
  function Nudge(pos: Vec3, normal: Vec3, sign: real): Vec3 {
    pos.Add(normal.Scale(sign * 0.5))
  }

  /**
   * `place_block`'s target: half a block out of the hit face, in the chunk
   * holding that point, at `pos - chunk_pos - Vec3::Y` cast to `u32`.
   */
  function PlaceTarget(pos: Vec3, normal: Vec3): Target {
    var p := Nudge(pos, normal, 1.0);
    var key := Chunks.ChunkKeyForPos(p);
    var local := p.Sub(AsVec3(key)).Sub(Vec3(0.0, 1.0, 0.0));
    Target(key, UVec3(AsU32Sat(local.x), AsU32Sat(local.y), AsU32Sat(local.z)))
  }

  /**
   * `remove_block`'s target: half a block into the hit face, in the chunk
   * holding that point, at `pos - chunk_pos` with `y - 1`, cast to `u32`.
   */
  function RemoveTarget(pos: Vec3, normal: Vec3): Target {
    var p := Nudge(pos, normal, -1.0);
    var key := Chunks.ChunkKeyForPos(p);
    var local := p.Sub(AsVec3(key));
    Target(key, UVec3(AsU32Sat(local.x), AsU32Sat(local.y - 1.0), AsU32Sat(local.z)))
  }

  /**
   * The cell a point resolves to: the point's chunk, the column holding it
   * inside that chunk, and the layer one below its height (clamped at 0).
   */
  ghost predicate TargetOf(t: Target, p: Vec3) {
    && t.key == Chunks.ChunkKeyForPos(p)
    && t.cell.x < CHUNK_LENGTH && t.cell.z < CHUNK_LENGTH
    && (t.key.x + t.cell.x) as real <= p.x < (t.key.x + t.cell.x + 1) as real
    && (t.key.z + t.cell.z) as real <= p.z < (t.key.z + t.cell.z + 1) as real
    && t.cell.y == AsU32Sat(p.y - 1.0)
  }

  /** One coordinate of a local cell: the column of `c` inside the chunk starting at `o`. */
  lemma LocalColumn(c: real, o: int)
    requires o as real <= c < o as real + CHUNK_LENGTH as real
    ensures AsU32Sat(c - o as real) < CHUNK_LENGTH
    ensures (o + AsU32Sat(c - o as real)) as real <= c < (o + AsU32Sat(c - o as real) + 1) as real
  {
  }

  /** Both edits address the block one below the nudged point, in its own chunk column. */
  lemma EditTargets(pos: Vec3, normal: Vec3)
    ensures TargetOf(PlaceTarget(pos, normal), Nudge(pos, normal, 1.0))
    ensures TargetOf(RemoveTarget(pos, normal), Nudge(pos, normal, -1.0))
  {
    var p, q := Nudge(pos, normal, 1.0), Nudge(pos, normal, -1.0);
    var kp, kq := Chunks.ChunkKeyForPos(p), Chunks.ChunkKeyForPos(q);
    LocalColumn(p.x, kp.x);
    LocalColumn(p.z, kp.z);
    LocalColumn(q.x, kq.x);
    LocalColumn(q.z, kq.z);
    assert p.y - 0.0 - 1.0 == p.y - 1.0;
  }

  /** What one edit did. */
  datatype EditOutcome =
    | Ignored     // no click, cursor free, or no hit within range
    | NoChunk     // no buffer is stored for the target chunk
    | OutOfChunk  // the target layer lies above the chunk
    | Kept        // placing onto a cell that is not air: the cell is left as it is
    | Written

  /** The chunk contents `c` with cell `i` of chunk `key` set to `v`. */
  ghost function WriteCell(c: map<IVec3, seq<Voxel>>, key: IVec3, i: nat, v: Voxel): map<IVec3, seq<Voxel>>
    requires key in c && i < |c[key]|
  {
    c[key := c[key][i := v]]
  }

  /**
   * Writes `v` at the target if the target chunk is stored and the cell lies in
   * it, unless `onlyIntoAir` and the cell is not `air`; marks the chunk dirty
   * whenever its buffer exists and the cell lies in it.
   */
  method Edit(chunks: ChunkMap, dirty: Chunks.DirtyChunks, t: Target, v: Voxel, onlyIntoAir: bool, air: Voxel)
    returns (outcome: EditOutcome)
    requires chunks.Valid()
    modifies dirty, chunks.Arrays()
    ensures chunks.Valid()
    ensures outcome == NoChunk <==> t.key !in chunks.buffers
    ensures outcome != Ignored
    ensures t.key in chunks.buffers ==>
              var b := chunks.buffers[t.key];
              && (outcome == OutOfChunk <==> !b.shape.InBounds(t.cell))
              && (outcome == Written <==> b.shape.InBounds(t.cell) && (!onlyIntoAir || old(b.VoxelAt(t.cell)) == air))
              && (outcome == Written ==> b.VoxelAt(t.cell) == v)
    ensures chunks.Contents() ==
              if outcome == Written
              then WriteCell(old(chunks.Contents()), t.key, chunks.buffers[t.key].shape.linearize(t.cell), v)
              else old(chunks.Contents())
    ensures dirty.dirty == if outcome == Written || outcome == Kept then old(dirty.dirty) + {t.key} else old(dirty.dirty)
  {
    match chunks.BufferAt(t.key)
    case None =>
      return NoChunk;
    case Some(b) =>
      if !b.shape.InBounds(t.cell) {
        return OutOfChunk;
      }
      ghost var before := chunks.Contents();
      dirty.MarkDirty(t.key);
      assert chunks.Contents() == before;
      if onlyIntoAir && b.VoxelAt(t.cell) != air {
        outcome := Kept;
      } else {
        WriteThrough(chunks, t.key, b, t.cell, v);
        outcome := Written;
      }
  }

  /** Writing one cell of a stored buffer changes that cell of that chunk's contents and nothing else. */
  method WriteThrough(chunks: ChunkMap, key: IVec3, b: VoxelBuffer, cell: UVec3, v: Voxel)
    requires chunks.Valid() && key in chunks.buffers && chunks.buffers[key] == b && b.shape.InBounds(cell)
    modifies b.data
    ensures b.VoxelAt(cell) == v
    ensures chunks.Contents() == WriteCell(old(chunks.Contents()), key, b.shape.linearize(cell), v)
  {
    ghost var before := chunks.Contents();
    ghost var expected := WriteCell(before, key, b.shape.linearize(cell), v);
    b.Set(cell, v);
    ghost var after := chunks.Contents();
    assert after.Keys == expected.Keys;
    forall k | k in after
      ensures after[k] == expected[k]
    {
      if k != key {
        assert chunks.buffers[k].data != b.data;
      }
    }
  }

  /**
   * The right-click handler: with the button just pressed, the cursor grabbed
   * and a hit within range, places `Voxel(selectedMat)` at `PlaceTarget` if
   * that cell is air; the chunk is marked dirty even when the cell was kept.
   */
  method PlaceBlock(chunks: ChunkMap, dirty: Chunks.DirtyChunks, justPressed: bool, grabbed: bool, hit: Option<Hit>,
                    selectedMat: u16, m: MaterialIds)
    returns (outcome: EditOutcome)
    requires chunks.Valid()
    modifies dirty, chunks.Arrays()
    ensures chunks.Valid()
    ensures outcome == Ignored <==> !(justPressed && grabbed && InRangeHit(hit).Some?)
    ensures outcome == Ignored ==> dirty.dirty == old(dirty.dirty) && chunks.Contents() == old(chunks.Contents())
    ensures outcome != Ignored ==>
              var t := PlaceTarget(InRangeHit(hit).value.0, InRangeHit(hit).value.1);
              && (outcome == NoChunk <==> t.key !in chunks.buffers)
              && (t.key in chunks.buffers ==>
                    var b := chunks.buffers[t.key];
                    && (outcome == OutOfChunk <==> !b.shape.InBounds(t.cell))
                    && (outcome == Written <==> b.shape.InBounds(t.cell) && old(b.VoxelAt(t.cell)) == m.air)
                    && (outcome == Kept <==> b.shape.InBounds(t.cell) && old(b.VoxelAt(t.cell)) != m.air))
              && chunks.Contents() ==
                   (if outcome == Written
                    then WriteCell(old(chunks.Contents()), t.key, chunks.buffers[t.key].shape.linearize(t.cell), Voxel(selectedMat))
                    else old(chunks.Contents()))
              && dirty.dirty == if outcome == Written || outcome == Kept then old(dirty.dirty) + {t.key} else old(dirty.dirty)
  {
    if !(justPressed && grabbed) {
      return Ignored;
    }
    match InRangeHit(hit)
    case None =>
      return Ignored;
    case Some(h) =>
      var t := PlaceTarget(h.0, h.1);
      outcome := Edit(chunks, dirty, t, Voxel(selectedMat), true, m.air);
  }

  /**
   * The left-click handler: with the button just pressed, the cursor grabbed
   * and a hit within range, writes air at `RemoveTarget` whatever the cell
   * held, and marks the chunk dirty.
   */
  method RemoveBlock(chunks: ChunkMap, dirty: Chunks.DirtyChunks, justPressed: bool, grabbed: bool, hit: Option<Hit>,
                     m: MaterialIds)
    returns (outcome: EditOutcome)
    requires chunks.Valid()
    modifies dirty, chunks.Arrays()
    ensures chunks.Valid()
    ensures outcome == Ignored <==> !(justPressed && grabbed && InRangeHit(hit).Some?)
    ensures outcome == Ignored ==> dirty.dirty == old(dirty.dirty) && chunks.Contents() == old(chunks.Contents())
    ensures outcome != Kept
    ensures outcome != Ignored ==>
              var t := RemoveTarget(InRangeHit(hit).value.0, InRangeHit(hit).value.1);
              && (outcome == NoChunk <==> t.key !in chunks.buffers)
              && (t.key in chunks.buffers ==>
                    var b := chunks.buffers[t.key];
                    && (outcome == OutOfChunk <==> !b.shape.InBounds(t.cell))
                    && (outcome == Written <==> b.shape.InBounds(t.cell)))
              && chunks.Contents() ==
                   (if outcome == Written
                    then WriteCell(old(chunks.Contents()), t.key, chunks.buffers[t.key].shape.linearize(t.cell), m.air)
                    else old(chunks.Contents()))
              && dirty.dirty == if outcome == Written then old(dirty.dirty) + {t.key} else old(dirty.dirty)
  {
    if !(justPressed && grabbed) {
      return Ignored;
    }
    match InRangeHit(hit)
    case None =>
      return Ignored;
    case Some(h) =>
      var t := RemoveTarget(h.0, h.1);
      outcome := Edit(chunks, dirty, t, m.air, false, m.air);
  }

  // ---------------------------------------------------------------------------
  // The edit targets against the drawn chunk mesh

  /** The normal of a top face. */
  const UP: Vec3 := Vec3(0.0, 1.0, 0.0)

  /**
   * Whether `p` lies in the unit cube the mesh of chunk `key` draws local cell
   * `c` in: the mesh is placed at the prepared translation, and cell `c` is the
   * padded cell `c + (1, 1, 1)` of the meshing buffer, drawn at that corner.
   */
  ghost predicate DrawnIn(key: IVec3, c: UVec3, p: Vec3) {
    var lo := Meshing.PreparedBundle(key).translation.Add(AsVec3(IVec3(c.x + 1, c.y + 1, c.z + 1)));
    lo.x <= p.x < lo.x + 1.0 && lo.y <= p.y < lo.y + 1.0 && lo.z <= p.z < lo.z + 1.0
  }

  /** Whether `key` is the key of a chunk: a multiple of 32 on x and z, at height 0. */
  predicate IsChunkKey(key: IVec3) {
    key.y == 0 && key.x % CHUNK_LENGTH as int == 0 && key.z % CHUNK_LENGTH as int == 0
  }

  /** Whether `pos` is a point of the top face of the drawn cell `c` of chunk `key`. */
  predicate OnTopFace(key: IVec3, c: UVec3, pos: Vec3) {
    && (key.x + c.x) as real <= pos.x < (key.x + c.x + 1) as real
    && (key.z + c.z) as real <= pos.z < (key.z + c.z + 1) as real
    && pos.y == (key.y + c.y + 1) as real
  }

  /** The chunk key of a point inside a chunk's column is that chunk's key. */
  lemma KeyOfPointInChunk(key: IVec3, p: Vec3)
    requires IsChunkKey(key)
    requires key.x as real <= p.x < (key.x + 32) as real && key.z as real <= p.z < (key.z + 32) as real
    ensures Chunks.ChunkKeyForPos(p) == key
  {
    Chunks.ChunkFloorUnique(p.x, key.x);
    Chunks.ChunkFloorUnique(p.z, key.z);
  }

  /**
   * As written, a click on the top face of drawn cell `c` misses by one layer:
   * the point half a block out of the face is drawn in the cell above `c`, yet
   * `place_block` aims at `c` itself, which is not air, so nothing is placed;
   * the point half a block into the face is drawn in `c`, yet `remove_block`
   * clears the cell below `c`.
   */
  lemma TopFaceEditsOneLayerLow(key: IVec3, c: UVec3, pos: Vec3)
    requires IsChunkKey(key) && c.x < CHUNK_LENGTH && c.z < CHUNK_LENGTH && 1 <= c.y < CHUNK_HEIGHT
    requires OnTopFace(key, c, pos)
    ensures DrawnIn(key, UVec3(c.x, c.y + 1, c.z), Nudge(pos, UP, 1.0))
    ensures DrawnIn(key, c, Nudge(pos, UP, -1.0))
    ensures PlaceTarget(pos, UP) == Target(key, c)
    ensures RemoveTarget(pos, UP) == Target(key, UVec3(c.x, c.y - 1, c.z))
  {
    var p, q := Nudge(pos, UP, 1.0), Nudge(pos, UP, -1.0);
    KeyOfPointInChunk(key, p);
    KeyOfPointInChunk(key, q);
    var lp := p.Sub(AsVec3(key)).Sub(Vec3(0.0, 1.0, 0.0));
    var lq := q.Sub(AsVec3(key));
    CastInCell(lp.x, c.x);
    CastInCell(lp.y, c.y);
    CastInCell(lp.z, c.z);
    CastInCell(lq.x, c.x);
    CastInCell(lq.y - 1.0, c.y - 1);
    CastInCell(lq.z, c.z);
  }

  /** A coordinate inside cell `i` casts to `i`. */
  lemma CastInCell(v: real, i: nat)
    requires i <= U32_MAX && i as real <= v < (i + 1) as real
    ensures AsU32Sat(v) == i
  {
    assert v.Floor == i;
  }

  /** `place_block`'s target without the `- Vec3::Y`: the cell the nudged point is drawn in. */
  function PlaceTargetCorrected(pos: Vec3, normal: Vec3): Target {
    var p := Nudge(pos, normal, 1.0);
    var key := Chunks.ChunkKeyForPos(p);
    var local := p.Sub(AsVec3(key));
    Target(key, UVec3(AsU32Sat(local.x), AsU32Sat(local.y), AsU32Sat(local.z)))
  }

  /** `remove_block`'s target without the `- 1.`: the cell the nudged point is drawn in. */
  function RemoveTargetCorrected(pos: Vec3, normal: Vec3): Target {
    var p := Nudge(pos, normal, -1.0);
    var key := Chunks.ChunkKeyForPos(p);
    var local := p.Sub(AsVec3(key));
    Target(key, UVec3(AsU32Sat(local.x), AsU32Sat(local.y), AsU32Sat(local.z)))
  }

  /**
   * The corrected targets are the cells the nudged points are drawn in, for
   * every hit whose nudged point lies at a chunk height (not below 0): place
   * aims at the cell in front of the hit face, remove at the cell behind it.
   */
  lemma CorrectedTargetsDrawn(pos: Vec3, normal: Vec3)
    ensures var p, t := Nudge(pos, normal, 1.0), PlaceTargetCorrected(pos, normal);
      0.0 <= p.y < CHUNK_HEIGHT as real ==>
        t.key == Chunks.ChunkKeyForPos(p) && t.cell.x < CHUNK_LENGTH && t.cell.z < CHUNK_LENGTH && t.cell.y < CHUNK_HEIGHT
        && DrawnIn(t.key, t.cell, p)
    ensures var q, t := Nudge(pos, normal, -1.0), RemoveTargetCorrected(pos, normal);
      0.0 <= q.y < CHUNK_HEIGHT as real ==>
        t.key == Chunks.ChunkKeyForPos(q) && t.cell.x < CHUNK_LENGTH && t.cell.z < CHUNK_LENGTH && t.cell.y < CHUNK_HEIGHT
        && DrawnIn(t.key, t.cell, q)
  {
    var p, q := Nudge(pos, normal, 1.0), Nudge(pos, normal, -1.0);
    var kp, kq := Chunks.ChunkKeyForPos(p), Chunks.ChunkKeyForPos(q);
    LocalColumn(p.x, kp.x);
    LocalColumn(p.z, kp.z);
    LocalColumn(q.x, kq.x);
    LocalColumn(q.z, kq.z);
  }

  /** Corrected, a click on the top face of drawn cell `c` places into the cell above `c` and removes `c`. */
  lemma TopFaceEditsCorrected(key: IVec3, c: UVec3, pos: Vec3)
    requires IsChunkKey(key) && c.x < CHUNK_LENGTH && c.z < CHUNK_LENGTH && c.y < CHUNK_HEIGHT
    requires OnTopFace(key, c, pos)
    ensures PlaceTargetCorrected(pos, UP) == Target(key, UVec3(c.x, c.y + 1, c.z))
    ensures RemoveTargetCorrected(pos, UP) == Target(key, c)
  {
    var p, q := Nudge(pos, UP, 1.0), Nudge(pos, UP, -1.0);
    KeyOfPointInChunk(key, p);
    KeyOfPointInChunk(key, q);
    var lp, lq := p.Sub(AsVec3(key)), q.Sub(AsVec3(key));
    CastInCell(lp.x, c.x);
    CastInCell(lp.y, c.y + 1);
    CastInCell(lp.z, c.z);
    CastInCell(lq.x, c.x);
    CastInCell(lq.y, c.y);
    CastInCell(lq.z, c.z);
  }
}
