/**
 * The block-state registry (src/core/blocks/state/list.rs): the
 * `register_state` and `register_state_range` macros insert `BlockState`
 * values into the states map, and `create_states` registers the states of the
 * built-in blocks. A panic inside `BlockTextures::new` (a texture list of an
 * unsupported length) is modelled as the registration reporting failure
 * without inserting.
 */
module BlockStates {
  import opened Wrappers
  import opened Textures
  import opened Seqs

  /** The block model kinds (src/core/blocks/state/model.rs); their shapes and meshes are not modelled. */
  datatype BlockModel = NoModel | Standard | Simple | Complex | CustomModel

  datatype BlockState = BlockState(blockId: nat, stateId: nat, textures: BlockTextures, model: BlockModel)

  /** The textures `register_state` stores: `NONE` for no path, otherwise `BlockTextures::new`. */
  function StateTextures(paths: seq<string>): (r: Result<BlockTextures, string>)
    ensures r.Ok? <==> |paths| in {0, 1, 2, 3, 6}
    ensures |paths| == 0 ==> r == Ok(NONE)
    ensures |paths| > 0 ==> r == New(paths)
  {
    if |paths| == 0 then Ok(NONE) else New(paths)
  }

  /** The model `register_state` picks when none is given. */
  function DefaultModel(paths: seq<string>): BlockModel {
    if |paths| == 0 then NoModel else Standard
  }

  /** Every state is stored under its own id. */
  ghost predicate IdsMatch(states: map<nat, BlockState>) {
    forall k :: k in states ==> states[k].stateId == k
  }

  /** The `n` states with ids `lo`, `lo + 1`, ..., all of block `blockId` with the same textures and model. */
  function RangeStates(blockId: nat, lo: nat, n: nat, t: BlockTextures, model: BlockModel): map<nat, BlockState> {
    if n == 0 then map[] else RangeStates(blockId, lo, n - 1, t, model)[lo + n - 1 := BlockState(blockId, lo + n - 1, t, model)]
  }

  /** The range registers exactly its `n` ids, each with the block, the textures and the model given. */
  lemma {:induction false} RangeStatesSpec(blockId: nat, lo: nat, n: nat, t: BlockTextures, model: BlockModel)
    ensures forall id: nat :: id in RangeStates(blockId, lo, n, t, model) <==> lo <= id < lo + n
    ensures forall id :: id in RangeStates(blockId, lo, n, t, model) ==>
              RangeStates(blockId, lo, n, t, model)[id] == BlockState(blockId, id, t, model)
  {
    if n > 0 {
      RangeStatesSpec(blockId, lo, n - 1, t, model);
    }
  }

  /**
   * The states of the zipped form of `register_state_range`: the `i`-th id of
   * the range with the `i`-th model and the `i`-th texture list, for the first
   * `k` entries.
   */
  function ZippedStates(blockId: nat, lo: nat, models: seq<BlockModel>, paths: seq<seq<string>>, k: nat): map<nat, BlockState>
    requires k <= |models| && k <= |paths|
    requires forall i :: 0 <= i < k ==> StateTextures(paths[i]).Ok?
  {
    if k == 0 then map[]
    else ZippedStates(blockId, lo, models, paths, k - 1)[lo + k - 1 := BlockState(blockId, lo + k - 1, StateTextures(paths[k - 1]).value, models[k - 1])]
  }

  /** The zipped entries register ids `lo` to `lo + k - 1`, the `i`-th with the `i`-th model and textures. */
  lemma {:induction false} ZippedStatesSpec(blockId: nat, lo: nat, models: seq<BlockModel>, paths: seq<seq<string>>, k: nat)
    requires k <= |models| && k <= |paths|
    requires forall i :: 0 <= i < k ==> StateTextures(paths[i]).Ok?
    ensures forall id: nat :: id in ZippedStates(blockId, lo, models, paths, k) <==> lo <= id < lo + k
    ensures forall id :: id in ZippedStates(blockId, lo, models, paths, k) ==> ZippedStates(blockId, lo, models, paths, k)[id].stateId == id
    ensures forall i :: 0 <= i < k ==>
              ZippedStates(blockId, lo, models, paths, k)[lo + i] == BlockState(blockId, lo + i, StateTextures(paths[i]).value, models[i])
  {
    if k > 0 {
      ZippedStatesSpec(blockId, lo, models, paths, k - 1);
    }
  }

  /** The first entry among the first `n` whose texture list `BlockTextures::new` rejects, or `n`. */
  function FirstInvalid(paths: seq<seq<string>>, n: nat): (k: nat)
    requires n <= |paths|
    ensures k <= n
    ensures forall i :: 0 <= i < k ==> StateTextures(paths[i]).Ok?
    ensures k < n ==> StateTextures(paths[k]).Err?
  {
    if n == 0 then 0
    else
      var k := FirstInvalid(paths, n - 1);
      if k < n - 1 then k else if StateTextures(paths[n - 1]).Ok? then n else n - 1
  }

  /** The number of ids in the inclusive range `lo..=hi`. */
  function RangeLen(lo: nat, hi: nat): nat {
    if hi < lo then 0 else hi + 1 - lo
  }

  function Min3(a: nat, b: nat, c: nat): (m: nat)
    ensures m <= a && m <= b && m <= c && (m == a || m == b || m == c)
  {
    if a <= b && a <= c then a else if b <= c then b else c
  }

  /** The states map of the block registry. */
  class StatesMap {
    var states: map<nat, BlockState>

    constructor ()
      ensures states == map[]
    {
      states := map[];
    }

    /**
     * `register_state!` with an explicit model: inserts the state under its id,
     * replacing an earlier state with that id; `ok` is false where
     * `BlockTextures::new` panics, and then nothing is inserted.
     */
    method RegisterStateWith(blockId: nat, stateId: nat, paths: seq<string>, model: BlockModel) returns (ok: bool)
      modifies this
      ensures ok <==> |paths| in {0, 1, 2, 3, 6}
      ensures ok ==> states == old(states)[stateId := BlockState(blockId, stateId, StateTextures(paths).value, model)]
      ensures !ok ==> states == old(states)
      ensures IdsMatch(old(states)) ==> IdsMatch(states)
    {
      var textures := StateTextures(paths);
      if textures.Err? {
        return false;
      }
      states := states[stateId := BlockState(blockId, stateId, textures.value, model)];
      ok := true;
    }

    /** `register_state!`: no path gives `BlockModel::None`, a path list `BlockModel::Standard`. */
    method RegisterState(blockId: nat, stateId: nat, paths: seq<string>) returns (ok: bool)
      modifies this
      ensures ok <==> |paths| in {0, 1, 2, 3, 6}
      ensures ok ==> states == old(states)[stateId := BlockState(blockId, stateId, StateTextures(paths).value, DefaultModel(paths))]
      ensures ok ==> (states[stateId].model == NoModel <==> |paths| == 0)
      ensures !ok ==> states == old(states)
      ensures IdsMatch(old(states)) ==> IdsMatch(states)
    {
      ok := RegisterStateWith(blockId, stateId, paths, DefaultModel(paths));
    }

    /**
     * `register_state_range!` with one texture list: every id of `lo..=hi`
     * gets a state of `blockId` with those textures; an empty range registers
     * nothing, and a rejected texture list panics at the first id.
     */
    method RegisterStateRange(blockId: nat, lo: nat, hi: nat, paths: seq<string>) returns (ok: bool)
      modifies this
      ensures ok <==> hi < lo || |paths| in {0, 1, 2, 3, 6}
      ensures |paths| in {0, 1, 2, 3, 6} ==>
                states == old(states) + RangeStates(blockId, lo, RangeLen(lo, hi), StateTextures(paths).value, DefaultModel(paths))
      ensures hi < lo ==> states == old(states)
      ensures !ok ==> states == old(states)
      ensures IdsMatch(old(states)) ==> IdsMatch(states)
    {
      var count := RangeLen(lo, hi);
      ok := true;
      if StateTextures(paths).Err? {
        // the first registration panics; an empty range registers nothing
        if count > 0 {
          ok := RegisterState(blockId, lo, paths);
        }
        return;
      }
      ghost var t, model := StateTextures(paths).value, DefaultModel(paths);
      ghost var s0 := states;
      var i := 0;
      while i < count
        invariant 0 <= i <= count
        invariant ok && states == s0 + RangeStates(blockId, lo, i, t, model)
      {
        ghost var before := states;
        ok := RegisterState(blockId, lo + i, paths);
        RangeStep(s0, before, states, blockId, lo, i, t, model);
        i := i + 1;
      }
      RangeStatesSpec(blockId, lo, count, t, model);
      IdsMatchUnion(s0, RangeStates(blockId, lo, count, t, model));
    }

    /**
     * `register_state_range!` with one model and one texture list per id,
     * zipped with `zip_eq`: the entries are registered in order until the
     * shortest of the three runs out, stopping at a rejected texture list;
     * `ok` holds only when all three have the same length and every texture
     * list is accepted.
     */
    method RegisterStateRangeZipped(blockId: nat, lo: nat, hi: nat, models: seq<BlockModel>, paths: seq<seq<string>>)
      returns (ok: bool)
      modifies this
      ensures var count := RangeLen(lo, hi);
              var k := FirstInvalid(paths, Min3(count, |models|, |paths|));
              && (ok <==> k == count && count == |models| == |paths|)
              && states == old(states) + ZippedStates(blockId, lo, models, paths, k)
      ensures IdsMatch(old(states)) ==> IdsMatch(states)
    {
      var count := RangeLen(lo, hi);
      var n := Min3(count, |models|, |paths|);
      ghost var k := FirstInvalid(paths, n);
      ghost var s0 := states;
      var i := 0;
      while i < n
        invariant 0 <= i <= k
        invariant states == s0 + ZippedStates(blockId, lo, models, paths, i)
      {
        FirstInvalidStep(paths, n, i);
        ok := RegisterStateWith(blockId, lo + i, paths[i], models[i]);
        if !ok {
          ZippedIdsMatch(s0, blockId, lo, models, paths, n, i);
          return;
        }
        ZippedStep(s0, blockId, lo, models, paths, i);
        i := i + 1;
      }
      ZippedIdsMatch(s0, blockId, lo, models, paths, n, i);
      ok := count == |models| == |paths|;
    }

    /** `create_states`: the built-in states, replacing earlier states with the same ids. */
    method CreateStates()
      modifies this
      ensures states == old(states) + DefaultStates()
      ensures IdsMatch(old(states)) ==> IdsMatch(states)
    {
      ghost var s0 := states;
      var _ := RegisterState(0, 0, []);
      var _ := RegisterState(1, 1, ["stone.png"]);
      var _ := RegisterState(2, 2, ["dirt.png"]);
      ghost var s3 := states;
      var _ := RegisterStateRange(3, 3, 4, GRASS_PATHS);
      ghost var s5 := states;
      var _ := RegisterStateRange(4, 5, 6, LOG_PATHS);
      DefaultStatesAsRegistered(s0, s3, s5, states);
      DefaultStatesEntries();
      IdsMatchUnion(s0, DefaultStates());
    }
  }

  /** One more registration of the range. */
  lemma RangeStep(s0: map<nat, BlockState>, before: map<nat, BlockState>, after: map<nat, BlockState>,
                  blockId: nat, lo: nat, i: nat, t: BlockTextures, model: BlockModel)
    requires before == s0 + RangeStates(blockId, lo, i, t, model)
    requires after == before[lo + i := BlockState(blockId, lo + i, t, model)]
    ensures after == s0 + RangeStates(blockId, lo, i + 1, t, model)
  {
    UnionUpdate(s0, RangeStates(blockId, lo, i, t, model), lo + i, BlockState(blockId, lo + i, t, model));
  }

  /** One more registration of the zipped form. */
  lemma ZippedStep(s0: map<nat, BlockState>, blockId: nat, lo: nat, models: seq<BlockModel>, paths: seq<seq<string>>, i: nat)
    requires i < |models| && i < |paths|
    requires forall j :: 0 <= j <= i ==> StateTextures(paths[j]).Ok?
    ensures (s0 + ZippedStates(blockId, lo, models, paths, i))[lo + i := BlockState(blockId, lo + i, StateTextures(paths[i]).value, models[i])]
            == s0 + ZippedStates(blockId, lo, models, paths, i + 1)
  {
    UnionUpdate(s0, ZippedStates(blockId, lo, models, paths, i), lo + i, BlockState(blockId, lo + i, StateTextures(paths[i]).value, models[i]));
  }

  /** Registering the first `i` zipped states keeps every state under its own id. */
  lemma ZippedIdsMatch(s0: map<nat, BlockState>, blockId: nat, lo: nat, models: seq<BlockModel>, paths: seq<seq<string>>, n: nat, i: nat)
    requires n <= |models| && n <= |paths| && i <= FirstInvalid(paths, n)
    ensures IdsMatch(s0) ==> IdsMatch(s0 + ZippedStates(blockId, lo, models, paths, i))
  {
    ZippedStatesSpec(blockId, lo, models, paths, i);
    IdsMatchUnion(s0, ZippedStates(blockId, lo, models, paths, i));
  }

  /** A map whose two parts store every state under its own id does too. */
  lemma IdsMatchUnion(a: map<nat, BlockState>, b: map<nat, BlockState>)
    requires forall id :: id in b ==> b[id].stateId == id
    ensures IdsMatch(a) ==> IdsMatch(a + b)
  {
  }

  /** Entries before the first rejected texture list are accepted; the first rejected one is `FirstInvalid`. */
  lemma {:induction false} FirstInvalidStep(paths: seq<seq<string>>, n: nat, i: nat)
    requires i < n <= |paths| && i <= FirstInvalid(paths, n)
    ensures StateTextures(paths[i]).Ok? <==> i < FirstInvalid(paths, n)
  {
  }

  const GRASS_PATHS: seq<string> := ["grass_block_top.png", "dirt.png", "grass_block_side.png"]
  const LOG_PATHS: seq<string> := ["oak_log_top.png", "oak_log.png"]

  /** The states `create_states` registers: three single states and two ranges of two. */
  function DefaultStates(): map<nat, BlockState> {
    map[0 := BlockState(0, 0, NONE, NoModel)]
       [1 := BlockState(1, 1, StateTextures(["stone.png"]).value, Standard)]
       [2 := BlockState(2, 2, StateTextures(["dirt.png"]).value, Standard)]
    + RangeStates(3, 3, 2, StateTextures(GRASS_PATHS).value, Standard)
    + RangeStates(4, 5, 2, StateTextures(LOG_PATHS).value, Standard)
  }

  /** The registrations of `create_states`, in order, put the built-in states over the earlier ones. */
  lemma DefaultStatesAsRegistered(s0: map<nat, BlockState>, s3: map<nat, BlockState>, s5: map<nat, BlockState>, s7: map<nat, BlockState>)
    requires s3 == s0[0 := BlockState(0, 0, NONE, NoModel)]
                     [1 := BlockState(1, 1, StateTextures(["stone.png"]).value, Standard)]
                     [2 := BlockState(2, 2, StateTextures(["dirt.png"]).value, Standard)]
    requires s5 == s3 + RangeStates(3, 3, 2, StateTextures(GRASS_PATHS).value, Standard)
    requires s7 == s5 + RangeStates(4, 5, 2, StateTextures(LOG_PATHS).value, Standard)
    ensures s7 == s0 + DefaultStates()
  {
    var a0 := BlockState(0, 0, NONE, NoModel);
    var a1 := BlockState(1, 1, StateTextures(["stone.png"]).value, Standard);
    var a2 := BlockState(2, 2, StateTextures(["dirt.png"]).value, Standard);
    var head := map[0 := a0][1 := a1][2 := a2];
    UpdateIsUnion(s0, 0, a0);
    UnionUpdate(s0, map[0 := a0], 1, a1);
    UnionUpdate(s0, map[0 := a0][1 := a1], 2, a2);
    var grass := RangeStates(3, 3, 2, StateTextures(GRASS_PATHS).value, Standard);
    UnionAssoc(s0, head, grass);
    UnionAssoc(s0, head + grass, RangeStates(4, 5, 2, StateTextures(LOG_PATHS).value, Standard));
  }

  /**
   * The built-in states are ids 0 to 6, each under its own id: 0 is block 0
   * without textures or model; 1 (stone) and 2 (dirt) have one texture each;
   * 3 and 4 belong to block 3 with top, bottom and side textures; 5 and 6
   * belong to block 4 with top/bottom and side textures.
   */
  lemma DefaultStatesEntries()
    ensures DefaultStates().Keys == {0, 1, 2, 3, 4, 5, 6}
    ensures IdsMatch(DefaultStates())
    ensures DefaultStates()[0] == BlockState(0, 0, NONE, NoModel)
    ensures DefaultStates()[1] == BlockState(1, 1, BlockTextures(Single, LoadPaths(["stone.png"])), Standard)
    ensures DefaultStates()[2] == BlockState(2, 2, BlockTextures(Single, LoadPaths(["dirt.png"])), Standard)
    ensures forall id :: 3 <= id <= 4 ==>
              DefaultStates()[id] == BlockState(3, id, BlockTextures(TopBottomSides, LoadPaths(GRASS_PATHS)), Standard)
    ensures forall id :: 5 <= id <= 6 ==>
              DefaultStates()[id] == BlockState(4, id, BlockTextures(TopBottom, LoadPaths(LOG_PATHS)), Standard)
  {
    var grass, log := StateTextures(GRASS_PATHS).value, StateTextures(LOG_PATHS).value;
    RangeStatesSpec(3, 3, 2, grass, Standard);
    RangeStatesSpec(4, 5, 2, log, Standard);
    assert RangeStates(3, 3, 2, grass, Standard).Keys == {3, 4};
    assert RangeStates(4, 5, 2, log, Standard).Keys == {5, 6};
  }

  /** State ids 0, 1 and 2 belong to blocks 0, 1 and 2, ids 3 and 4 to block 3, ids 5 and 6 to block 4. */
  lemma DefaultStateBlockId(s: nat)
    ensures s in DefaultStates() <==> s <= 6
    ensures s in DefaultStates() ==>
              DefaultStates()[s].blockId == (if s <= 2 then s else if s <= 4 then 3 else 4)
  {
    var grass, log := StateTextures(GRASS_PATHS).value, StateTextures(LOG_PATHS).value;
    RangeStatesSpec(3, 3, 2, grass, Standard);
    RangeStatesSpec(4, 5, 2, log, Standard);
  }

  /**
   * A built-in state has the model `None` exactly when it has no texture, and
   * then its textures are `NONE`; every textured state gives every face a
   * texture.
   */
  lemma DefaultStatesTextured(id: nat, d: Direction)
    requires id in DefaultStates()
    ensures (DefaultStates()[id].model == NoModel) <==> |DefaultStates()[id].textures.textures| == 0
    ensures DefaultStates()[id].model == NoModel ==> DefaultStates()[id].textures == NONE
    ensures DefaultStates()[id].model == Standard ==> GetTexture(DefaultStates()[id].textures, d).Some?
  {
    DefaultStatesEntries();
    assert id == 0 || id == 1 || id == 2 || id == 3 || id == 4 || id == 5 || id == 6;
  }
}
