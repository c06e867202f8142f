/** What `stats()` reports: whose blocks are in use, and how much of them is waste. */
module KvCacheStats {
  import opened Lists
  import opened Allocator
  import opened KvCache
  import opened KvCacheValid

  /** Committed tokens of the listed requests. */
  function LengthsOf(c: Cache, ids: seq<nat>): nat {
    if ids == [] then 0 else
    LengthsOf(c, ids[..|ids| - 1]) + (if ids[|ids| - 1] in c.lengths then c.lengths[ids[|ids| - 1]] else 0)
  }

  function PrefixTokens(prefixes: seq<Entry>): nat {
    if prefixes == [] then 0 else prefixes[0].length + PrefixTokens(prefixes[1..])
  }

  /** Every table has exactly the blocks its committed length needs. */
  ghost predicate TablesTight(c: Cache) {
    forall r :: r in c.tables && r in c.lengths ==> |c.tables[r]| == BlocksFor(c.size, c.lengths[r])
  }

  lemma {:induction false} BlockWaste(size: Positive, tokens: nat, blocks: nat)
    requires BlocksFor(size, tokens) <= blocks
    ensures tokens <= blocks * size
    ensures blocks == BlocksFor(size, tokens) ==> blocks * size < tokens + size
  {
    BlocksForIsLeast(size, tokens, blocks);
    if blocks == BlocksFor(size, tokens) && blocks > 0 {
      BlocksForIsLeast(size, tokens, blocks - 1);
      assert blocks * size == (blocks - 1) * size + size;
    }
  }

  /**
   * The slots held by a resident are whole blocks and cover its committed tokens; with a tight table they are the
   * least such multiple of the block size, and a request without a table holds none.
   */
  lemma {:induction false} AllocatedIsLeast(c: Cache, id: nat, blocks: nat)
    requires c.Valid()
    ensures c.AllocatedTokens(id) % c.size == 0
    ensures id !in c.tables ==> c.AllocatedTokens(id) == 0
    ensures id in c.tables ==> id in c.lengths && c.lengths[id] <= c.AllocatedTokens(id)
    ensures id in c.tables && TablesTight(c) ==>
      (c.AllocatedTokens(id) <= blocks * c.size <==> c.lengths[id] <= blocks * c.size)
  {
    hide Cache.PrefixesValid, Blocks.Valid;
    if id in c.tables {
      var held := |c.tables[id]|;
      MultipleOf(c.size, held, 0);
      BlocksForIsLeast(c.size, c.lengths[id], held);
      BlocksForIsLeast(c.size, c.lengths[id], blocks);
      if held <= blocks {
        Multiples(held, blocks, c.size);
      } else {
        Multiples(blocks + 1, held, c.size);
      }
    }
  }

  lemma {:induction false} Multiples(a: nat, b: nat, k: nat)
    requires a <= b
    ensures a * k <= b * k
  {
  }

  lemma {:induction false} TableWaste(c: Cache, ids: seq<nat>)
    requires c.Valid() && forall r :: r in ids ==> r in c.tables
    ensures LengthsOf(c, ids) <= TableBlocks(c, ids) * c.size
    ensures TablesTight(c) ==> TableBlocks(c, ids) * c.size <= LengthsOf(c, ids) + |ids| * (c.size - 1)
  {
    if ids != [] {
      var n := |ids| - 1;
      assert ids == ids[..n] + [ids[n]];
      TableWaste(c, ids[..n]);
      BlockWaste(c.size, c.lengths[ids[n]], |c.tables[ids[n]]|);
      OneMore(TableBlocks(c, ids[..n]), |c.tables[ids[n]]|, c.size);
      OneMore(n, 1, c.size - 1);
    }
  }

  lemma {:induction false} OneMore(a: nat, b: nat, k: nat)
    ensures (a + b) * k == a * k + b * k
  {
  }

  lemma {:induction false} PrefixesFull(c: Cache, k: nat)
    requires c.Valid() && k <= |c.prefixes|
    ensures PrefixTokens(c.prefixes[k..]) == PrefixBlocks(c.prefixes[k..]) * c.size
    decreases |c.prefixes| - k
  {
    if k < |c.prefixes| {
      var e, rest := c.prefixes[k], c.prefixes[k + 1..];
      assert c.prefixes[k..][1..] == rest;
      PrefixesFull(c, k + 1);
      assert c.EntryValid(e);
      OneMore(|e.blocks|, PrefixBlocks(rest), c.size);
    }
  }

  /**
   * `request_blocks_used` is the sum of the table lengths; reserved slots never fall short of occupied ones,
   * so the clamp on internal fragmentation is never needed; with tight tables the waste is under one block
   * per request.
   */
  lemma {:induction false} StatsFacts(c: Cache, ids: seq<nat>)
    requires c.Valid() && ListsResidents(c, ids)
    ensures |c.alloc.owner| == |c.alloc.keys|
    ensures |c.alloc.owner| - PrefixBlocks(c.prefixes) == TableBlocks(c, ids)
    ensures var reserved, occupied := |c.alloc.owner| * c.size, LengthsOf(c, ids) + PrefixTokens(c.prefixes);
      && occupied <= reserved
      && (TablesTight(c) ==> reserved <= occupied + |ids| * (c.size - 1))
  {
    BlockConservation(c, ids);
    SetOfNoDup(c.alloc.keys);
    assert Elements(c.alloc.keys) == c.alloc.owner.Keys;
    TableWaste(c, ids);
    assert c.prefixes[0..] == c.prefixes;
    PrefixesFull(c, 0);
    OneMore(TableBlocks(c, ids), PrefixBlocks(c.prefixes), c.size);
  }

  /** The sum over the dict of lengths, whatever its order. */
  lemma {:induction false} LengthsSum(c: Cache, ids: seq<nat>)
    requires NoDup(ids) && forall r :: r in ids ==> r in c.lengths
    ensures Elements(ids) <= c.lengths.Keys && LengthsOf(c, ids) == SumOver(c.lengths, Elements(ids))
  {
    if ids == [] {
      assert Elements(ids) == {};
    } else {
      var n := |ids| - 1;
      assert ids == ids[..n] + [ids[n]];
      LengthsSum(c, ids[..n]);
      assert Elements(ids) - {ids[n]} == Elements(ids[..n]);
      assert ids[n] in Elements(ids);
      SumRemove(c.lengths, Elements(ids), ids[n]);
    }
  }
}
