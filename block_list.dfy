/**
 * The block registry (src/core/blocks/block/list.rs): the `register_block`
 * macro inserts a `Block` into the blocks map, and `create_blocks` registers
 * the five built-in blocks with their state ranges and properties.
 */
module Blocks {
  import opened Seqs
  import BlockStates

  /** `BlockProperties`. */
  datatype BlockProperties = BlockProperties(collidable: bool, isOpaque: bool, isAir: bool)

  /** `BlockProperties::default()`: a solid, opaque block that is not air. */
  function DefaultProperties(): (p: BlockProperties)
    ensures p.collidable && p.isOpaque && !p.isAir
  {
    BlockProperties(true, true, false)
  }

  /** The properties of air: neither collidable nor opaque, and air. */
  const AIR_PROPERTIES: BlockProperties := BlockProperties(false, false, true)

  /** An inclusive range `start..=end` of state ids. */
  datatype StateRange = StateRange(start: nat, end: nat)

  predicate InRange(r: StateRange, s: nat) {
    r.start <= s <= r.end
  }

  datatype Block = Block(blockId: nat, blockStates: StateRange, name: string, properties: BlockProperties)

  /** Every block is stored under its own id. */
  ghost predicate IdsMatch(blocks: map<nat, Block>) {
    forall k :: k in blocks ==> blocks[k].blockId == k
  }

  /** The blocks `create_blocks` registers, in registration order. */
  function DefaultBlocks(): map<nat, Block> {
    map[0 := Block(0, StateRange(0, 0), "air", AIR_PROPERTIES)]
       [1 := Block(1, StateRange(1, 1), "stone", DefaultProperties())]
       [2 := Block(2, StateRange(2, 2), "dirt", DefaultProperties())]
       [3 := Block(3, StateRange(3, 4), "grass_block", DefaultProperties())]
       [4 := Block(4, StateRange(5, 6), "Oak Log", DefaultProperties())]
  }

  class BlocksMap {
    var blocks: map<nat, Block>

    constructor ()
      ensures blocks == map[]
    {
      blocks := map[];
    }

    /** `register_block!`: inserts the block under its id, replacing an earlier block with that id. */
    method RegisterBlock(blockId: nat, blockStates: StateRange, name: string, properties: BlockProperties)
      modifies this
      ensures blocks == old(blocks)[blockId := Block(blockId, blockStates, name, properties)]
      ensures IdsMatch(old(blocks)) ==> IdsMatch(blocks)
      ensures blockId in blocks && blocks[blockId].blockId == blockId
    {
      blocks := blocks[blockId := Block(blockId, blockStates, name, properties)];
    }

    /** `create_blocks`: registers air, stone, dirt, grass and oak log over whatever the map holds. */
    method CreateBlocks()
      modifies this
      ensures blocks == old(blocks) + DefaultBlocks()
      ensures IdsMatch(old(blocks)) ==> IdsMatch(blocks)
    {
      ghost var s0 := blocks;
      RegisterBlock(0, StateRange(0, 0), "air", AIR_PROPERTIES);
      RegisterBlock(1, StateRange(1, 1), "stone", DefaultProperties());
      RegisterBlock(2, StateRange(2, 2), "dirt", DefaultProperties());
      RegisterBlock(3, StateRange(3, 4), "grass_block", DefaultProperties());
      RegisterBlock(4, StateRange(5, 6), "Oak Log", DefaultProperties());
      DefaultBlocksAsRegistered(s0, blocks);
      DefaultBlocksEntries();
      if IdsMatch(s0) {
        assert forall k :: k in blocks ==> blocks[k].blockId == k by {
          forall k | k in blocks
            ensures blocks[k].blockId == k
          {
            if k !in DefaultBlocks() {
              assert blocks[k] == s0[k];
            }
          }
        }
      }
    }
  }

  /** Five registrations in a row put the built-in blocks over the earlier ones. */
  lemma DefaultBlocksAsRegistered(s0: map<nat, Block>, s5: map<nat, Block>)
    requires s5 == s0[0 := Block(0, StateRange(0, 0), "air", AIR_PROPERTIES)]
                     [1 := Block(1, StateRange(1, 1), "stone", DefaultProperties())]
                     [2 := Block(2, StateRange(2, 2), "dirt", DefaultProperties())]
                     [3 := Block(3, StateRange(3, 4), "grass_block", DefaultProperties())]
                     [4 := Block(4, StateRange(5, 6), "Oak Log", DefaultProperties())]
    ensures s5 == s0 + DefaultBlocks()
  {
    var b0 := Block(0, StateRange(0, 0), "air", AIR_PROPERTIES);
    var b1 := Block(1, StateRange(1, 1), "stone", DefaultProperties());
    var b2 := Block(2, StateRange(2, 2), "dirt", DefaultProperties());
    var b3 := Block(3, StateRange(3, 4), "grass_block", DefaultProperties());
    var b4 := Block(4, StateRange(5, 6), "Oak Log", DefaultProperties());
    UpdateIsUnion(s0, 0, b0);
    UnionUpdate(s0, map[0 := b0], 1, b1);
    UnionUpdate(s0, map[0 := b0][1 := b1], 2, b2);
    UnionUpdate(s0, map[0 := b0][1 := b1][2 := b2], 3, b3);
    UnionUpdate(s0, map[0 := b0][1 := b1][2 := b2][3 := b3], 4, b4);
  }

  /**
   * Exactly the blocks 0 to 4 are registered, each under its own id; air
   * (block 0) has the air properties and blocks 1 to 4 the default ones.
   */
  lemma DefaultBlocksEntries()
    ensures DefaultBlocks().Keys == {0, 1, 2, 3, 4}
    ensures IdsMatch(DefaultBlocks())
    ensures DefaultBlocks()[0].properties == BlockProperties(false, false, true)
    ensures forall id :: 1 <= id <= 4 ==> DefaultBlocks()[id].properties == DefaultProperties()
    ensures forall id :: id in DefaultBlocks() ==> (DefaultBlocks()[id].properties.isAir <==> id == 0)
  {
  }

  /**
   * The state ranges of the built-in blocks are non-empty, follow one another
   * without gap or overlap in the order of the block ids, start at 0 and end
   * at 6; no state id belongs to two blocks.
   */
  lemma DefaultRangesPartition()
    ensures DefaultBlocks()[0].blockStates.start == 0
    ensures DefaultBlocks()[4].blockStates.end == 6
    ensures forall id :: 0 <= id <= 4 ==> DefaultBlocks()[id].blockStates.start <= DefaultBlocks()[id].blockStates.end
    ensures forall id :: 1 <= id <= 4 ==>
              DefaultBlocks()[id].blockStates.start == DefaultBlocks()[id - 1].blockStates.end + 1
    ensures forall s: nat, i, j :: i in DefaultBlocks() && j in DefaultBlocks() &&
              InRange(DefaultBlocks()[i].blockStates, s) && InRange(DefaultBlocks()[j].blockStates, s)
              ==> i == j
  {
    DefaultBlocksEntries();
  }

  /** A state id belongs to one of the built-in blocks exactly when it is at most 6. */
  lemma DefaultRangesCover(s: nat)
    ensures s <= 6 <==> exists id :: id in DefaultBlocks() && InRange(DefaultBlocks()[id].blockStates, s)
  {
    DefaultBlocksEntries();
    if s <= 6 {
      var id := if s <= 2 then s else if s <= 4 then 3 else 4;
      assert InRange(DefaultBlocks()[id].blockStates, s);
    }
  }

  /**
   * The block table agrees with the state table: the states registered with
   * a block's id are exactly the ids of the block's state range.
   */
  lemma DefaultBlocksMatchStates(id: nat, s: nat)
    requires id in DefaultBlocks()
    ensures InRange(DefaultBlocks()[id].blockStates, s) <==> s in BlockStates.DefaultStates() && BlockStates.DefaultStates()[s].blockId == id
  {
    var r := DefaultBlocks()[id].blockStates;
    assert r == (if id <= 2 then StateRange(id, id) else if id == 3 then StateRange(3, 4) else StateRange(5, 6));
    BlockStates.DefaultStateBlockId(s);
  }
}
