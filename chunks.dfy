/**
 * Chunk lifecycle (src/voxel/world/chunks.rs): which chunk the player stands
 * in, the per-tick load/unload decision around it, the key -> entity registry,
 * the dirty set, and the systems that drain the create and destroy queues.
 */
module Chunks {
  import opened Geometry
  import opened Wrappers
  import opened Seqs
  import opened Storage
  import opened ChunkMaps
  import opened Ecs

  /** `ChunkLoadRadius::horizontal` as the plugin installs it. */
  const DEFAULT_LOAD_RADIUS: int := 8

  // ---------------------------------------------------------------------------
  // Position -> chunk origin

  /** `c.div_euclid(32.0) * 32.0` for one coordinate. */
  function ChunkFloor(c: real): (o: int)
    ensures o % CHUNK_LENGTH as int == 0
    ensures o as real <= c < o as real + CHUNK_LENGTH as real
  {
    (c / CHUNK_LENGTH as real).Floor * CHUNK_LENGTH as int
  }

  /** The origin of the chunk holding a coordinate is the only multiple of 32 within 32 below it. */
  lemma ChunkFloorUnique(c: real, o: int)
    requires o % CHUNK_LENGTH as int == 0 && o as real <= c < o as real + CHUNK_LENGTH as real
    ensures o == ChunkFloor(c)
  {
    var f := ChunkFloor(c);
    var m, n := o / 32, f / 32;
    assert o == 32 * m && f == 32 * n;
    assert (32 * m) as real < (32 * n + 32) as real;
    assert (32 * n) as real < (32 * m + 32) as real;
  }

  /** `get_chunk_for_pos`: the origin of the chunk holding `pos`, at height 0. */
  function ChunkForPos(pos: Vec3): (r: Vec3)
    ensures r.y == 0.0
    ensures r.x == ChunkFloor(pos.x) as real && r.z == ChunkFloor(pos.z) as real
  {
    Vec3(ChunkFloor(pos.x) as real, 0.0, ChunkFloor(pos.z) as real)
  }

  /** `get_chunk_for_pos(pos).as_ivec3()`: exact, as the coordinates are whole numbers. */
  function ChunkKeyForPos(pos: Vec3): (k: IVec3)
    ensures AsVec3(k) == ChunkForPos(pos)
    ensures k.y == 0 && k.x % CHUNK_LENGTH as int == 0 && k.z % CHUNK_LENGTH as int == 0
    ensures k.x as real <= pos.x < k.x as real + CHUNK_LENGTH as real
    ensures k.z as real <= pos.z < k.z as real + CHUNK_LENGTH as real
  {
    IVec3(ChunkFloor(pos.x), 0, ChunkFloor(pos.z))
  }

  // ---------------------------------------------------------------------------
  // The view pass, as specification functions

  // The literal 32 below is CHUNK_LENGTH.

  /** The key of the chunk `x` columns and `z` rows of chunks away from `min`. */
  function ViewKey(min: IVec3, x: int, z: int): IVec3 {
    min.Add(IVec3(x * 32, 0, z * 32))
  }

  /** The circular load test: strictly inside radius `r`, in chunk units. */
  predicate InView(x: int, z: int, r: int) {
    x * x + z * z < r * r
  }

  /** The unload test: squared horizontal distance strictly beyond `r` chunks. */
  predicate Far(k: IVec3, min: IVec3, r: int) {
    var d := k.Sub(min);
    d.x * d.x + d.z * d.z > r * r * (32 * 32)
  }

  /** Create requests of the inner loop, from row offset `z` to `r - 1`. */
  function RowRequests(min: IVec3, r: int, x: int, z: int, loaded: set<IVec3>): seq<IVec3>
    decreases r - z
  {
    if z >= r then []
    else
      (if InView(x, z, r) && ViewKey(min, x, z) !in loaded then [ViewKey(min, x, z)] else [])
      + RowRequests(min, r, x, z + 1, loaded)
  }

  /** Create requests of the outer loop, from column offset `x` to `r - 1`. */
  function GridRequests(min: IVec3, r: int, x: int, loaded: set<IVec3>): seq<IVec3>
    decreases r - x
  {
    if x >= r then [] else RowRequests(min, r, x, -r, loaded) + GridRequests(min, r, x + 1, loaded)
  }

  /** The keys the view pass appends to the create queue, in loop order. */
  function CreateRequests(min: IVec3, r: int, loaded: set<IVec3>): seq<IVec3> {
    GridRequests(min, r, -r, loaded)
  }

  /** The chunk keys in view of `min`: every offset inside the circle of radius `r`. */
  ghost function ViewKeys(min: IVec3, r: int): set<IVec3> {
    set x, z | -r <= x < r && -r <= z < r && InView(x, z, r) :: ViewKey(min, x, z)
  }

  /** The registered keys the view pass queues for destruction. */
  ghost function DestroyKeys(min: IVec3, r: int, loaded: set<IVec3>): set<IVec3> {
    set k | k in loaded && Far(k, min, r)
  }

  ghost predicate InRow(k: IVec3, min: IVec3, r: int, x: int, z: int) {
    exists z' :: z <= z' < r && InView(x, z', r) && k == ViewKey(min, x, z')
  }

  ghost predicate InGrid(k: IVec3, min: IVec3, r: int, x: int) {
    exists x', z' :: x <= x' < r && -r <= z' < r && InView(x', z', r) && k == ViewKey(min, x', z')
  }

  lemma {:induction false} RowRequestsMember(min: IVec3, r: int, x: int, z: int, loaded: set<IVec3>, k: IVec3)
    ensures k in RowRequests(min, r, x, z, loaded) <==> k !in loaded && InRow(k, min, r, x, z)
    decreases r - z
  {
    if z < r {
      RowRequestsMember(min, r, x, z + 1, loaded, k);
      if k !in loaded && InRow(k, min, r, x, z) {
        var z' :| z <= z' < r && InView(x, z', r) && k == ViewKey(min, x, z');
        if z' > z {
          assert InRow(k, min, r, x, z + 1);
        }
      }
      if k in RowRequests(min, r, x, z + 1, loaded) {
        var z' :| z + 1 <= z' < r && InView(x, z', r) && k == ViewKey(min, x, z');
        assert InRow(k, min, r, x, z);
      }
    }
  }

  lemma {:induction false} RowRequestsDistinct(min: IVec3, r: int, x: int, z: int, loaded: set<IVec3>)
    ensures forall k :: k in RowRequests(min, r, x, z, loaded) ==> k.x == min.x + x * 32 && k.z >= min.z + z * 32
    ensures Distinct(RowRequests(min, r, x, z, loaded))
    decreases r - z
  {
    if z < r {
      RowRequestsDistinct(min, r, x, z + 1, loaded);
      var head := if InView(x, z, r) && ViewKey(min, x, z) !in loaded then [ViewKey(min, x, z)] else [];
      DistinctAppend(head, RowRequests(min, r, x, z + 1, loaded));
    }
  }

  lemma {:induction false} GridRequestsMember(min: IVec3, r: int, x: int, loaded: set<IVec3>, k: IVec3)
    ensures k in GridRequests(min, r, x, loaded) <==> k !in loaded && InGrid(k, min, r, x)
    decreases r - x
  {
    if x < r {
      GridRequestsMember(min, r, x + 1, loaded, k);
      RowRequestsMember(min, r, x, -r, loaded, k);
      GridSplit(k, min, r, x);
      CombineMembership(k in GridRequests(min, r, x, loaded), k in RowRequests(min, r, x, -r, loaded),
                        k in GridRequests(min, r, x + 1, loaded), k !in loaded,
                        InGrid(k, min, r, x), InRow(k, min, r, x, -r), InGrid(k, min, r, x + 1));
    } else {
      assert !InGrid(k, min, r, x);
    }
  }

  /** The propositional step of `GridRequestsMember`. */
  lemma CombineMembership(inAll: bool, inHead: bool, inRest: bool, unloaded: bool, all: bool, head: bool, rest: bool)
    requires inAll <==> inHead || inRest
    requires inHead <==> unloaded && head
    requires inRest <==> unloaded && rest
    requires all <==> head || rest
    ensures inAll <==> unloaded && all
  {
  }

  /** A key is in the grid from column `x` when it is in column `x` or in the grid from `x + 1`. */
  lemma GridSplit(k: IVec3, min: IVec3, r: int, x: int)
    requires x < r
    ensures InGrid(k, min, r, x) <==> InRow(k, min, r, x, -r) || InGrid(k, min, r, x + 1)
  {
    if InGrid(k, min, r, x) {
      var x', z' :| x <= x' < r && -r <= z' < r && InView(x', z', r) && k == ViewKey(min, x', z');
      if x' > x {
        assert InGrid(k, min, r, x + 1);
      } else {
        assert InRow(k, min, r, x, -r);
      }
    }
    if InRow(k, min, r, x, -r) {
      var z' :| -r <= z' < r && InView(x, z', r) && k == ViewKey(min, x, z');
      assert InGrid(k, min, r, x);
    }
    if InGrid(k, min, r, x + 1) {
      var x', z' :| x + 1 <= x' < r && -r <= z' < r && InView(x', z', r) && k == ViewKey(min, x', z');
      assert InGrid(k, min, r, x);
    }
  }

  lemma {:induction false} GridRequestsDistinct(min: IVec3, r: int, x: int, loaded: set<IVec3>)
    ensures forall k :: k in GridRequests(min, r, x, loaded) ==> k.x >= min.x + x * 32
    ensures Distinct(GridRequests(min, r, x, loaded))
    decreases r - x
  {
    if x < r {
      GridRequestsDistinct(min, r, x + 1, loaded);
      RowRequestsDistinct(min, r, x, -r, loaded);
      DistinctAppend(RowRequests(min, r, x, -r, loaded), GridRequests(min, r, x + 1, loaded));
    }
  }

  /**
   * The create requests of one view pass are exactly the keys in view that are
   * not registered yet, each requested once.
   */
  lemma CreateRequestsExact(min: IVec3, r: int, loaded: set<IVec3>)
    ensures Elements(CreateRequests(min, r, loaded)) == ViewKeys(min, r) - loaded
    ensures Distinct(CreateRequests(min, r, loaded))
  {
    GridRequestsDistinct(min, r, -r, loaded);
    forall k
      ensures k in Elements(CreateRequests(min, r, loaded)) <==> k in ViewKeys(min, r) - loaded
    {
      GridRequestsMember(min, r, -r, loaded, k);
      ViewKeysGrid(min, r, k);
      SameMembership(k in GridRequests(min, r, -r, loaded), k in ViewKeys(min, r), InGrid(k, min, r, -r), k !in loaded);
    }
  }

  /** The propositional step of `CreateRequestsExact`. */
  lemma SameMembership(inRequests: bool, inView: bool, inGrid: bool, unloaded: bool)
    requires inRequests <==> unloaded && inGrid
    requires inView <==> inGrid
    ensures inRequests <==> inView && unloaded
  {
  }

  lemma ViewKeysGrid(min: IVec3, r: int, k: IVec3)
    ensures k in ViewKeys(min, r) <==> InGrid(k, min, r, -r)
  {
    if k in ViewKeys(min, r) {
      var x, z :| -r <= x < r && -r <= z < r && InView(x, z, r) && k == ViewKey(min, x, z);
      assert InGrid(k, min, r, -r);
    }
  }

  /** A key at chunk offset (x, z) is far exactly when the offset lies outside the closed circle. */
  lemma FarViewKey(min: IVec3, r: int, x: int, z: int)
    ensures Far(ViewKey(min, x, z), min, r) <==> x * x + z * z > r * r
  {
    var d := ViewKey(min, x, z).Sub(min);
    assert d.x == x * 32 && d.z == z * 32;
    assert d.x * d.x + d.z * d.z == 1024 * (x * x + z * z);
  }

  /** No key is both created and destroyed by the same pass. */
  lemma ViewPassDisjoint(min: IVec3, r: int, loaded: set<IVec3>)
    ensures Elements(CreateRequests(min, r, loaded)) !! DestroyKeys(min, r, loaded)
  {
    CreateRequestsExact(min, r, loaded);
  }

  /** A chunk in view is never far, so the next pass from the same position keeps it. */
  lemma ViewKeysNotFar(min: IVec3, r: int, k: IVec3)
    requires k in ViewKeys(min, r)
    ensures !Far(k, min, r)
  {
    var x, z :| -r <= x < r && -r <= z < r && InView(x, z, r) && k == ViewKey(min, x, z);
    FarViewKey(min, r, x, z);
  }

  /** A key exactly on the circle is neither requested nor queued for destruction. */
  lemma BoundaryKeyUntouched(min: IVec3, r: int, loaded: set<IVec3>, x: int, z: int)
    requires x * x + z * z == r * r
    ensures ViewKey(min, x, z) !in Elements(CreateRequests(min, r, loaded))
    ensures ViewKey(min, x, z) !in DestroyKeys(min, r, loaded)
  {
    CreateRequestsExact(min, r, loaded);
    FarViewKey(min, r, x, z);
    var k := ViewKey(min, x, z);
    forall x', z' | -r <= x' < r && -r <= z' < r && InView(x', z', r)
      ensures ViewKey(min, x', z') != k
    {
      ViewKeyInjective(min, x, z, x', z');
    }
  }

  /** Distinct chunk offsets give distinct keys. */
  lemma ViewKeyInjective(min: IVec3, x: int, z: int, x': int, z': int)
    ensures ViewKey(min, x, z) == ViewKey(min, x', z') ==> x == x' && z == z'
  {
  }

  // ---------------------------------------------------------------------------
  // Sorting the create queue

  /** Non-decreasing distance from `c`. */
  ghost predicate SortedByDist(s: seq<IVec3>, c: IVec3) {
    forall i, j :: 0 <= i < j < |s| ==> Dist2(s[i], c) <= Dist2(s[j], c)
  }

  /** `k` inserted before the first element farther than it. */
  function InsertByDist(s: seq<IVec3>, k: IVec3, c: IVec3): seq<IVec3> {
    if s == [] then [k]
    else if Dist2(k, c) <= Dist2(s[0], c) then [k] + s
    else [s[0]] + InsertByDist(s[1..], k, c)
  }

  lemma {:induction false} InsertByDistPerm(s: seq<IVec3>, k: IVec3, c: IVec3)
    ensures multiset(InsertByDist(s, k, c)) == multiset(s) + multiset{k}
  {
    if s != [] && Dist2(k, c) > Dist2(s[0], c) {
      InsertByDistPerm(s[1..], k, c);
      assert s == [s[0]] + s[1..];
    }
  }

  lemma {:induction false} InsertByDistSorted(s: seq<IVec3>, k: IVec3, c: IVec3)
    requires SortedByDist(s, c)
    ensures SortedByDist(InsertByDist(s, k, c), c)
  {
    if s != [] && Dist2(k, c) > Dist2(s[0], c) {
      var t := InsertByDist(s[1..], k, c);
      InsertByDistSorted(s[1..], k, c);
      InsertByDistPerm(s[1..], k, c);
      forall j | 0 <= j < |t|
        ensures Dist2(s[0], c) <= Dist2(t[j], c)
      {
        assert t[j] in multiset(t);
        if t[j] != k {
          assert t[j] in multiset(s[1..]);
          var i :| 0 <= i < |s[1..]| && s[1..][i] == t[j];
          assert s[i + 1] == t[j];
        }
      }
      assert InsertByDist(s, k, c) == [s[0]] + t;
    }
  }

  /**
   * `create.sort_unstable_by_key(distance to chunk_min)`: the result is a
   * permutation of the queue in non-decreasing distance order. The squared
   * distance orders keys as the distance does.
   */
  method SortByDistance(q: seq<IVec3>, c: IVec3) returns (r: seq<IVec3>)
    ensures multiset(r) == multiset(q)
    ensures SortedByDist(r, c)
  {
    r := [];
    var i := 0;
    while i < |q|
      invariant 0 <= i <= |q|
      invariant multiset(r) == multiset(q[..i])
      invariant SortedByDist(r, c)
    {
      InsertByDistPerm(r, q[i], c);
      InsertByDistSorted(r, q[i], c);
      r := InsertByDist(r, q[i], c);
      assert q[..i + 1] == q[..i] + [q[i]];
      i := i + 1;
    }
    assert q[..i] == q;
  }

  // ---------------------------------------------------------------------------
  // Resources

  /** `ChunkEntities`: the chunk key -> entity registry. */
  class ChunkEntities {
    var entities: map<IVec3, Entity>

    constructor ()
      ensures entities == map[]
    {
      entities := map[];
    }

    /** `entity`: the entity attached to `pos`, if any. */
    function EntityAt(pos: IVec3): (r: Option<Entity>)
      reads this
      ensures r.Some? <==> pos in entities
      ensures r.Some? ==> r.value == entities[pos]
    {
      if pos in entities then Some(entities[pos]) else None
    }

    /** `attach_entity`: overwrites any entity already attached to `pos`. */
    method AttachEntity(pos: IVec3, e: Entity)
      modifies this
      ensures entities == old(entities)[pos := e]
    {
      entities := entities[pos := e];
    }

    /** `detach_entity`: removes `pos` and returns the entity it had. */
    method DetachEntity(pos: IVec3) returns (r: Option<Entity>)
      modifies this
      ensures r == old(EntityAt(pos))
      ensures entities == old(entities) - {pos}
    {
      r := EntityAt(pos);
      entities := entities - {pos};
    }

    /** `iter_keys`: the loaded chunk keys. */
    function Keys(): set<IVec3>
      reads this
    {
      entities.Keys
    }

    /** `len`: the number of loaded chunks. */
    function Len(): (n: nat)
      reads this
      ensures n == |Keys()|
    {
      |entities.Keys|
    }
  }

  /** `DirtyChunks`: the chunks whose contents changed this frame. */
  class DirtyChunks {
    var dirty: set<IVec3>

    constructor ()
      ensures dirty == {}
    {
      dirty := {};
    }

    /** `mark_dirty`: idempotent, marking a dirty chunk again changes nothing. */
    method MarkDirty(chunk: IVec3)
      modifies this
      ensures dirty == old(dirty) + {chunk}
      ensures old(chunk in dirty) ==> dirty == old(dirty)
    {
      dirty := dirty + {chunk};
    }

    /** `iter_dirty`. */
    function IterDirty(): set<IVec3>
      reads this
    {
      dirty
    }

    /** `num_dirty`: the number of distinct dirty chunks. */
    function NumDirty(): (n: nat)
      reads this
      ensures n == |IterDirty()|
    {
      |dirty|
    }

    /** `clear_dirty_chunks`: run last in every frame. */
    method Clear()
      modifies this
      ensures dirty == {}
    {
      dirty := {};
    }
  }

  /** `CurrentLocalPlayerChunk`. */
  class CurrentLocalPlayerChunk {
    var chunkMin: IVec3
    var worldPos: Vec3

    /** The plugin's initial value: both at the origin. */
    constructor ()
      ensures chunkMin == IVec3(0, 0, 0) && worldPos == Vec3(0.0, 0.0, 0.0)
    {
      chunkMin := IVec3(0, 0, 0);
      worldPos := Vec3(0.0, 0.0, 0.0);
    }
  }

  /** `ChunkCommandQueue`. */
  class ChunkCommandQueue {
    var create: seq<IVec3>
    var destroy: seq<IVec3>

    constructor ()
      ensures create == [] && destroy == []
    {
      create := [];
      destroy := [];
    }

    /** `queue_unload`: appends the region to the destroy queue, in iteration order. */
    method QueueUnload(region: seq<IVec3>)
      modifies this
      ensures destroy == old(destroy) + region && create == old(create)
    {
      destroy := destroy + region;
    }
  }

  // ---------------------------------------------------------------------------
  // Systems

  /**
   * `update_player_pos`: `transform` is the player's translation when exactly one
   * player moved this frame. The stored position follows it, and the chunk origin
   * becomes the key of the chunk holding it.
   */
  method UpdatePlayerPos(transform: Option<Vec3>, chunkPos: CurrentLocalPlayerChunk)
    modifies chunkPos
    ensures transform.None? ==> chunkPos.chunkMin == old(chunkPos.chunkMin) && chunkPos.worldPos == old(chunkPos.worldPos)
    ensures transform.Some? ==> chunkPos.worldPos == transform.value && chunkPos.chunkMin == ChunkKeyForPos(transform.value)
  {
    if transform.Some? {
      var playerCoords := transform.value;
      var nearestChunkOrigin := ChunkKeyForPos(playerCoords);
      chunkPos.worldPos := playerCoords;
      if chunkPos.chunkMin != nearestChunkOrigin {
        chunkPos.chunkMin := nearestChunkOrigin;
      }
    }
  }

  /** The outer loop of `update_view_chunks`' load pass. */
  method CollectCreateRequests(min: IVec3, r: int, entities: ChunkEntities) returns (found: seq<IVec3>)
    ensures found == CreateRequests(min, r, entities.Keys())
  {
    ghost var loaded := entities.Keys();
    found := [];
    var x := -r;
    while x < r
      invariant found + GridRequests(min, r, x, loaded) == CreateRequests(min, r, loaded)
      decreases r - x
    {
      var row := CollectRow(min, r, x, entities);
      AppendAssoc(found, row, GridRequests(min, r, x + 1, loaded));
      found := found + row;
      x := x + 1;
    }
  }

  /** The inner loop: one column of chunk offsets, pushing the keys in view that have no entity. */
  method CollectRow(min: IVec3, r: int, x: int, entities: ChunkEntities) returns (row: seq<IVec3>)
    ensures row == RowRequests(min, r, x, -r, entities.Keys())
  {
    ghost var loaded := entities.Keys();
    row := [];
    var z := -r;
    while z < r
      invariant row + RowRequests(min, r, x, z, loaded) == RowRequests(min, r, x, -r, loaded)
      decreases r - z
    {
      ghost var rest := RowRequests(min, r, x, z + 1, loaded);
      if x * x + z * z < r * r {
        var chunkKey := min.Add(IVec3(x * 32, 0, z * 32));
        if entities.EntityAt(chunkKey).None? {
          AppendAssoc(row, [chunkKey], rest);
          row := row + [chunkKey];
        }
      }
      z := z + 1;
    }
  }

  /** The unload loop of `update_view_chunks`, over the registry keys in arbitrary order. */
  method CollectDestroyRequests(min: IVec3, r: int, entities: ChunkEntities) returns (found: seq<IVec3>)
    ensures Elements(found) == DestroyKeys(min, r, entities.Keys())
    ensures Distinct(found)
  {
    var keys := entities.Keys();
    var remaining := keys;
    found := [];
    while remaining != {}
      invariant remaining <= keys
      invariant Elements(found) == DestroyKeys(min, r, keys - remaining)
      invariant Distinct(found)
      invariant forall k :: k in found ==> k !in remaining
      decreases remaining
    {
      var loadedChunk :| loadedChunk in remaining;
      var delta := loadedChunk.Sub(min);
      assert keys - (remaining - {loadedChunk}) == (keys - remaining) + {loadedChunk};
      if delta.x * delta.x + delta.z * delta.z > r * r * (32 * 32) {
        DistinctSnoc(found, loadedChunk);
        ElementsSnoc(found, loadedChunk);
        found := found + [loadedChunk];
      }
      remaining := remaining - {loadedChunk};
    }
  }

  /**
   * `update_view_chunks`: the create queue receives the keys in view without an
   * entity, then is sorted by distance from the player's chunk; the destroy queue
   * receives, once each, the registered keys farther than the radius.
   */
  method UpdateViewChunks(playerPos: CurrentLocalPlayerChunk, entities: ChunkEntities, radius: int, queue: ChunkCommandQueue)
    modifies queue
    ensures multiset(queue.create) == multiset(old(queue.create) + CreateRequests(playerPos.chunkMin, radius, entities.Keys()))
    ensures SortedByDist(queue.create, playerPos.chunkMin)
    ensures |queue.destroy| >= |old(queue.destroy)| && queue.destroy[..|old(queue.destroy)|] == old(queue.destroy)
    ensures Elements(queue.destroy[|old(queue.destroy)|..]) == DestroyKeys(playerPos.chunkMin, radius, entities.Keys())
    ensures Distinct(queue.destroy[|old(queue.destroy)|..])
  {
    var min := playerPos.chunkMin;
    var created := CollectCreateRequests(min, radius, entities);
    var destroyed := CollectDestroyRequests(min, radius, entities);
    var n := |queue.destroy|;
    queue.destroy := queue.destroy + destroyed;
    assert queue.destroy[n..] == destroyed;
    queue.create := SortByDistance(queue.create + created, min);
  }

  /**
   * The registry and the live chunk entities correspond one to one: each
   * registered key's entity carries that key, and each live chunk entity is the
   * one registered for its key.
   */
  ghost predicate Consistent(registry: map<IVec3, Entity>, chunk: map<Entity, IVec3>) {
    && (forall k :: k in registry ==> registry[k] in chunk && chunk[registry[k]] == k)
    && (forall e :: e in chunk ==> chunk[e] in registry && registry[chunk[e]] == e)
  }

  /** The chunk components after spawning one entity per request, ids from `n` on. */
  function Spawned(chunk: map<Entity, IVec3>, n: nat, requests: seq<IVec3>): map<Entity, IVec3> {
    if requests == [] then chunk
    else Spawned(chunk, n, requests[..|requests| - 1])[Entity(n + |requests| - 1) := requests[|requests| - 1]]
  }

  /** The registry after attaching each request to its spawned entity, in order. */
  function Attached(registry: map<IVec3, Entity>, n: nat, requests: seq<IVec3>): map<IVec3, Entity> {
    if requests == [] then registry
    else Attached(registry, n, requests[..|requests| - 1])[requests[|requests| - 1] := Entity(n + |requests| - 1)]
  }

  /** Spawning adds exactly the entities with the next ids, each carrying its request. */
  lemma {:induction false} SpawnedSpec(chunk: map<Entity, IVec3>, n: nat, requests: seq<IVec3>)
    requires forall e :: e in chunk ==> e.id < n
    ensures forall e :: e in Spawned(chunk, n, requests) <==> e in chunk || n <= e.id < n + |requests|
    ensures forall e :: e in chunk ==> Spawned(chunk, n, requests)[e] == chunk[e]
    ensures forall i :: 0 <= i < |requests| ==> Spawned(chunk, n, requests)[Entity(n + i)] == requests[i]
  {
    if requests != [] {
      var init := requests[..|requests| - 1];
      SpawnedSpec(chunk, n, init);
      assert forall i :: 0 <= i < |init| ==> init[i] == requests[i];
    }
  }

  /**
   * Attaching registers every requested key, each to an entity spawned for it;
   * other keys keep their entity. A repeated request ends up attached to its last
   * spawn.
   */
  lemma {:induction false} AttachedSpec(registry: map<IVec3, Entity>, n: nat, requests: seq<IVec3>)
    ensures Attached(registry, n, requests).Keys == registry.Keys + Elements(requests)
    ensures forall k :: k in registry && k !in Elements(requests) ==> Attached(registry, n, requests)[k] == registry[k]
    ensures forall k :: k in Elements(requests) ==>
              var e := Attached(registry, n, requests)[k];
              n <= e.id < n + |requests| && requests[e.id - n] == k
  {
    AttachedKeys(registry, n, requests);
    AttachedKept(registry, n, requests);
    AttachedFromRequest(registry, n, requests);
  }

  lemma {:induction false} AttachedKeys(registry: map<IVec3, Entity>, n: nat, requests: seq<IVec3>)
    ensures Attached(registry, n, requests).Keys == registry.Keys + Elements(requests)
  {
    if requests != [] {
      var init := requests[..|requests| - 1];
      var last := requests[|requests| - 1];
      AttachedKeys(registry, n, init);
      assert requests == init + [last];
      ElementsSnoc(init, last);
    }
  }

  lemma {:induction false} AttachedKept(registry: map<IVec3, Entity>, n: nat, requests: seq<IVec3>)
    ensures forall k :: k in registry && k !in Elements(requests) ==>
              k in Attached(registry, n, requests) && Attached(registry, n, requests)[k] == registry[k]
  {
    if requests != [] {
      var init := requests[..|requests| - 1];
      var last := requests[|requests| - 1];
      AttachedKept(registry, n, init);
      AttachedKeys(registry, n, init);
      assert requests == init + [last];
      ElementsSnoc(init, last);
    }
  }

  lemma {:induction false} AttachedFromRequest(registry: map<IVec3, Entity>, n: nat, requests: seq<IVec3>)
    ensures forall k :: k in Elements(requests) ==>
              k in Attached(registry, n, requests) &&
              var e := Attached(registry, n, requests)[k];
              n <= e.id < n + |requests| && requests[e.id - n] == k
  {
    AttachedKeys(registry, n, requests);
    if requests != [] {
      var init := requests[..|requests| - 1];
      var last := requests[|requests| - 1];
      AttachedFromRequest(registry, n, init);
      AttachedKeys(registry, n, init);
      assert requests == init + [last];
      ElementsSnoc(init, last);
      assert forall i :: 0 <= i < |init| ==> init[i] == requests[i];
    }
  }

  /**
   * Requests that are distinct and unregistered, as the view pass makes them,
   * keep the registry and the live chunk entities in one-to-one correspondence.
   */
  lemma {:induction false} CreateKeepsConsistent(registry: map<IVec3, Entity>, chunk: map<Entity, IVec3>, n: nat, requests: seq<IVec3>)
    requires Consistent(registry, chunk) && forall e :: e in chunk ==> e.id < n
    requires Distinct(requests) && Elements(requests) !! registry.Keys
    ensures Consistent(Attached(registry, n, requests), Spawned(chunk, n, requests))
  {
    if requests != [] {
      var init := requests[..|requests| - 1];
      var last := requests[|requests| - 1];
      assert requests == init + [last];
      DistinctSnoc(init, last);
      ElementsSnoc(init, last);
      CreateKeepsConsistent(registry, chunk, n, init);
      AttachedSpec(registry, n, init);
      SpawnedSpec(chunk, n, init);
      ConsistentAttach(Attached(registry, n, init), Spawned(chunk, n, init), last, Entity(n + |init|));
    }
  }

  /** Registering a new key for a new entity keeps the correspondence. */
  lemma ConsistentAttach(registry: map<IVec3, Entity>, chunk: map<Entity, IVec3>, k: IVec3, e: Entity)
    requires Consistent(registry, chunk) && k !in registry && e !in chunk
    ensures Consistent(registry[k := e], chunk[e := k])
  {
  }

  /**
   * `create_chunks`: drains the create queue in order, spawning an entity with
   * `Chunk(key)` for each request and attaching it in the registry; the
   * properties of the result are `SpawnedSpec`, `AttachedSpec` and
   * `CreateKeepsConsistent`.
   */
  method CreateChunks(queue: ChunkCommandQueue, entities: ChunkEntities, world: World)
    requires world.Valid()
    modifies queue, entities, world
    ensures queue.create == [] && queue.destroy == old(queue.destroy)
    ensures world.Valid() && world.next == old(world.next) + |old(queue.create)|
    ensures world.chunk == Spawned(old(world.chunk), old(world.next), old(queue.create))
    ensures entities.entities == Attached(old(entities.entities), old(world.next), old(queue.create))
    ensures world.genTask == old(world.genTask) && world.meshTask == old(world.meshTask) && world.render == old(world.render)
  {
    var requests := queue.create;
    ghost var n0 := world.next;
    var i := 0;
    while i < |requests|
      invariant 0 <= i <= |requests|
      invariant queue.create == requests && queue.destroy == old(queue.destroy)
      invariant world.Valid() && world.next == n0 + i
      invariant world.chunk == Spawned(old(world.chunk), n0, requests[..i])
      invariant entities.entities == Attached(old(entities.entities), n0, requests[..i])
      invariant world.genTask == old(world.genTask) && world.meshTask == old(world.meshTask) && world.render == old(world.render)
    {
      var request := requests[i];
      ghost var done := requests[..i + 1];
      assert done[..|done| - 1] == requests[..i] && done[|done| - 1] == request;
      var e := world.Spawn(request);
      entities.AttachEntity(request, e);
      i := i + 1;
    }
    assert requests[..i] == requests;
    queue.create := [];
  }

  /** The entities registered for `keys`. */
  ghost function EntitiesOf(registry: map<IVec3, Entity>, keys: set<IVec3>): set<Entity> {
    set k | k in keys && k in registry :: registry[k]
  }

  /** A destroy queue `destroy_chunks` drains without panicking: every key registered, none repeated. */
  ghost predicate DestroySound(queue: seq<IVec3>, registered: set<IVec3>) {
    Distinct(queue) && Elements(queue) <= registered
  }

  lemma EntitiesOfSnoc(registry: map<IVec3, Entity>, s: seq<IVec3>, x: IVec3)
    ensures EntitiesOf(registry, Elements(s + [x])) ==
            EntitiesOf(registry, Elements(s)) + (if x in registry then {registry[x]} else {})
  {
    ElementsSnoc(s, x);
  }

  /** In a sound queue, each key is registered and has not occurred earlier. */
  lemma SoundQueueStep(queue: seq<IVec3>, registered: set<IVec3>, i: nat)
    requires DestroySound(queue, registered) && i < |queue|
    ensures queue[i] in registered && queue[i] !in Elements(queue[..i])
  {
    assert queue[i] in Elements(queue);
  }

  /** Removing keys and their entities together keeps the correspondence. */
  lemma DestroyKeepsConsistent(registry: map<IVec3, Entity>, chunk: map<Entity, IVec3>, keys: set<IVec3>)
    requires Consistent(registry, chunk)
    ensures Consistent(registry - keys, chunk - EntitiesOf(registry, keys))
  {
    var gone := EntitiesOf(registry, keys);
    forall e | e in chunk - gone
      ensures chunk[e] !in keys
    {
      assert registry[chunk[e]] == e;
    }
    forall k | k in registry - keys
      ensures registry[k] !in gone
    {
      forall k' | k' in keys && k' in registry
        ensures registry[k'] != registry[k]
      {
        assert chunk[registry[k']] == k';
      }
    }
  }

  /** The chunk map, registry and entity components at the start of a drain. */
  datatype Snapshot = Snapshot(
    buffers: map<IVec3, VoxelBuffer>, registry: map<IVec3, Entity>, next: nat, chunk: map<Entity, IVec3>,
    genTask: map<Entity, VoxelBuffer>, meshTask: map<Entity, MeshAssembly.MeshData>, render: map<Entity, RenderBundle>)

  ghost function Snap(chunks: ChunkMap, entities: ChunkEntities, world: World): Snapshot
    reads chunks, entities, world
  {
    Snapshot(chunks.buffers, entities.entities, world.next, world.chunk, world.genTask, world.meshTask, world.render)
  }

  /**
   * The state after draining `done` from `s0`: those keys are gone from the
   * registry and the chunk map, and their entities are despawned with all their
   * components.
   */
  ghost predicate DrainedUpTo(done: seq<IVec3>, chunks: ChunkMap, entities: ChunkEntities, world: World, s0: Snapshot)
    reads chunks, entities, world
  {
    var gone := EntitiesOf(s0.registry, Elements(done));
    && chunks.Valid() && chunks.buffers == s0.buffers - Elements(done)
    && entities.entities == s0.registry - Elements(done)
    && world.Valid() && world.next == s0.next
    && world.chunk == s0.chunk - gone && world.genTask == s0.genTask - gone
    && world.meshTask == s0.meshTask - gone && world.render == s0.render - gone
  }

  /**
   * The rest of one drain step once `command` has been detached: despawn the
   * detached entity, if any, and remove the key's buffer.
   */
  method FinishDrainStep(command: IVec3, detached: Option<Entity>, ghost done: seq<IVec3>,
                         chunks: ChunkMap, entities: ChunkEntities, world: World, ghost s0: Snapshot)
    requires chunks.Valid() && chunks.buffers == s0.buffers - Elements(done)
    requires entities.entities == s0.registry - Elements(done + [command])
    requires world.Valid() && world.next == s0.next
    requires var gone := EntitiesOf(s0.registry, Elements(done));
      && world.chunk == s0.chunk - gone && world.genTask == s0.genTask - gone
      && world.meshTask == s0.meshTask - gone && world.render == s0.render - gone
    requires detached == if command in s0.registry && command !in Elements(done) then Some(s0.registry[command]) else None
    modifies chunks, world
    ensures DrainedUpTo(done + [command], chunks, entities, world, s0)
  {
    ElementsSnoc(done, command);
    EntitiesOfSnoc(s0.registry, done, command);
    MinusOneMore(s0.buffers, Elements(done), command);
    if detached.Some? {
      var gone := EntitiesOf(s0.registry, Elements(done));
      MinusOneMore(s0.chunk, gone, detached.value);
      MinusOneMore(s0.genTask, gone, detached.value);
      MinusOneMore(s0.meshTask, gone, detached.value);
      MinusOneMore(s0.render, gone, detached.value);
      world.Despawn(detached.value);
    } else if command in s0.registry {
      assert s0.registry[command] in EntitiesOf(s0.registry, Elements(done));
    }
    chunks.Remove(command);
  }

  /** The end state of a completed destroy drain. */
  ghost predicate DestroyOutcome(queue: ChunkCommandQueue, chunks: ChunkMap, entities: ChunkEntities, world: World,
                                 destroy0: seq<IVec3>, create0: seq<IVec3>, s0: Snapshot)
    reads queue, chunks, entities, world
  {
    queue.destroy == [] && queue.create == create0 && DrainedUpTo(destroy0, chunks, entities, world, s0)
  }

  /**
   * `destroy_chunks` as written: drains the destroy queue, detaching each key's
   * entity, despawning it and removing the key's buffer. `unwrap` panics on the
   * first key that is no longer registered, so the drain panics exactly when the
   * queue repeats a key or holds an unregistered one. Nothing is promised about
   * the state a panic leaves.
   */
  method DestroyChunks(queue: ChunkCommandQueue, chunks: ChunkMap, entities: ChunkEntities, world: World)
    returns (panicked: bool)
    requires chunks.Valid() && world.Valid()
    modifies queue, chunks, entities, world
    ensures !panicked <==> DestroySound(old(queue.destroy), old(entities.Keys()))
    ensures !panicked ==>
              DestroyOutcome(queue, chunks, entities, world, old(queue.destroy), old(queue.create), old(Snap(chunks, entities, world)))
  {
    var commands := queue.destroy;
    ghost var s0 := Snap(chunks, entities, world);
    var i := 0;
    while i < |commands|
      invariant 0 <= i <= |commands|
      invariant queue.destroy == commands && queue.create == old(queue.create)
      invariant DestroySound(commands[..i], s0.registry.Keys)
      invariant DrainedUpTo(commands[..i], chunks, entities, world, s0)
    {
      var command := commands[i];
      assert commands[..i + 1] == commands[..i] + [command];
      ElementsSnoc(commands[..i], command);
      var detached := entities.DetachEntity(command);
      if detached.None? {
        if DestroySound(commands, s0.registry.Keys) {
          SoundQueueStep(commands, s0.registry.Keys, i);
        }
        return true;
      }
      DistinctSnoc(commands[..i], command);
      FinishDrainStep(command, detached, commands[..i], chunks, entities, world, s0);
      i := i + 1;
    }
    assert commands[..i] == commands;
    queue.destroy := [];
    return false;
  }

  /**
   * `destroy_chunks` with the `unwrap` replaced by skipping keys no longer
   * registered: it never panics, and for any queue ends in the state the
   * as-written drain reaches on a sound one.
   */
  method DestroyChunksSkippingMissing(queue: ChunkCommandQueue, chunks: ChunkMap, entities: ChunkEntities, world: World)
    requires chunks.Valid() && world.Valid()
    modifies queue, chunks, entities, world
    ensures DestroyOutcome(queue, chunks, entities, world, old(queue.destroy), old(queue.create), old(Snap(chunks, entities, world)))
  {
    var commands := queue.destroy;
    ghost var s0 := Snap(chunks, entities, world);
    var i := 0;
    while i < |commands|
      invariant 0 <= i <= |commands|
      invariant queue.destroy == commands && queue.create == old(queue.create)
      invariant DrainedUpTo(commands[..i], chunks, entities, world, s0)
    {
      var command := commands[i];
      assert commands[..i + 1] == commands[..i] + [command];
      ElementsSnoc(commands[..i], command);
      var detached := entities.DetachEntity(command);
      FinishDrainStep(command, detached, commands[..i], chunks, entities, world, s0);
      i := i + 1;
    }
    assert commands[..i] == commands;
    queue.destroy := [];
  }

  /**
   * "Clear loaded chunks" queues every registered key; if the view pass of the
   * same frame also queues a far key, either order of the two pushes repeats that
   * key, so the as-written drain panics.
   */
  lemma UnloadAllRacesViewPass(unloadAll: seq<IVec3>, viewDestroy: seq<IVec3>, registered: set<IVec3>, min: IVec3, r: int)
    requires Elements(unloadAll) == registered
    requires Elements(viewDestroy) == DestroyKeys(min, r, registered)
    requires DestroyKeys(min, r, registered) != {}
    ensures !DestroySound(unloadAll + viewDestroy, registered)
    ensures !DestroySound(viewDestroy + unloadAll, registered)
  {
    var k :| k in DestroyKeys(min, r, registered);
    assert k in unloadAll && k in viewDestroy;
    var i :| 0 <= i < |unloadAll| && unloadAll[i] == k;
    var j :| 0 <= j < |viewDestroy| && viewDestroy[j] == k;
    assert (unloadAll + viewDestroy)[i] == (unloadAll + viewDestroy)[|unloadAll| + j];
    assert (viewDestroy + unloadAll)[j] == (viewDestroy + unloadAll)[|viewDestroy| + i];
  }

  /**
   * A concrete instance: the player's chunk is the origin, the radius is the
   * default 8, and the chunk ten chunks east is still registered when the button
   * is pressed.
   */
  lemma UnloadAllRacesViewPassExample()
    ensures var origin, east := IVec3(0, 0, 0), IVec3(320, 0, 0);
      && DestroyKeys(origin, DEFAULT_LOAD_RADIUS, {origin, east}) == {east}
      && !DestroySound([origin, east] + [east], {origin, east})
  {
    var origin, east := IVec3(0, 0, 0), IVec3(320, 0, 0);
    assert Far(east, origin, DEFAULT_LOAD_RADIUS) && !Far(origin, origin, DEFAULT_LOAD_RADIUS);
    assert ([origin, east] + [east])[1] == ([origin, east] + [east])[2];
  }
}
