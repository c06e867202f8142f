/** The prefix dict is least-recently-used: what a restore and a store leave of it, in which order, entry by entry. */
module KvCacheRecency {
  import opened Lists
  import opened Allocator
  import opened Transformer
  import opened KvCache
  import opened KvCacheValid
  import opened KvCacheContent

  /** The entries with another key, in their order. */
  function Apart(prefixes: seq<Entry>, key: seq<Token>): seq<Entry> {
    if prefixes == [] then []
    else if prefixes[0].key == key then Apart(prefixes[1..], key)
    else [prefixes[0]] + Apart(prefixes[1..], key)
  }

  lemma {:induction false} ApartConcat(a: seq<Entry>, b: seq<Entry>, key: seq<Token>)
    ensures Apart(a + b, key) == Apart(a, key) + Apart(b, key)
  {
    if a == [] {
      assert a + b == b;
    } else {
      assert (a + b)[1..] == a[1..] + b;
      ApartConcat(a[1..], b, key);
    }
  }

  lemma {:induction false} ApartAll(prefixes: seq<Entry>, key: seq<Token>)
    requires forall e :: e in prefixes ==> e.key != key
    ensures Apart(prefixes, key) == prefixes
  {
    if prefixes != [] {
      assert prefixes == [prefixes[0]] + prefixes[1..];
      ApartAll(prefixes[1..], key);
    }
  }

  lemma {:induction false} ApartNone(prefixes: seq<Entry>, key: seq<Token>)
    requires OnlyProtected(prefixes, Some(key))
    ensures Apart(prefixes, key) == []
  {
    if prefixes != [] {
      assert prefixes == [prefixes[0]] + prefixes[1..];
      ApartNone(prefixes[1..], key);
    }
  }

  /** Keys are distinct: apart from the entry itself, everything is apart from its key. */
  lemma {:induction false} ApartFromOne(c: Cache, k: nat)
    requires c.PrefixesValid() && k < |c.prefixes|
    ensures Apart(c.prefixes, c.prefixes[k].key) == c.prefixes[..k] + c.prefixes[k + 1..]
  {
    var a, e, b := c.prefixes[..k], c.prefixes[k], c.prefixes[k + 1..];
    assert c.prefixes == a + ([e] + b);
    forall x | x in a ensures x.key != e.key {
      var i :| 0 <= i < k && a[i] == x;
      assert c.prefixes[i] == x;
    }
    forall x | x in b ensures x.key != e.key {
      var i :| 0 <= i < |b| && b[i] == x;
      assert c.prefixes[k + 1 + i] == x;
    }
    ApartConcat(a, [e] + b, e.key);
    ApartAll(a, e.key);
    ApartAll(b, e.key);
  }

  // -- eviction next to a protected entry -----------------------------------------------------

  /** The oldest `j` of `others` have been dropped, and the last of them had to be. */
  ghost predicate OldestDropped(free: nat, free': nat, others: seq<Entry>, j: nat, needed: nat) {
    && j <= |others| && free' == free + PrefixBlocks(others[..j])
    && (j > 0 ==> free + PrefixBlocks(others[..j - 1]) < needed)
  }

  lemma {:induction false} OneMoreDropped(free: nat, free': nat, e: Entry, others: seq<Entry>, j: nat, needed: nat)
    requires free < needed && OldestDropped(free + |e.blocks|, free', others, j, needed)
    ensures OldestDropped(free, free', [e] + others, j + 1, needed)
    ensures ([e] + others)[j + 1..] == others[j..]
  {
    var all := [e] + others;
    assert all[..j + 1] == [e] + others[..j];
    PrefixBlocksConcat([e], others[..j]);
    if j > 0 {
      assert all[..j] == [e] + others[..j - 1];
      PrefixBlocksConcat([e], others[..j - 1]);
    }
  }

  /** Protected eviction drops the least recently used of the other entries, none that it need not. */
  lemma {:induction false} EvictKeepsOrder(c: Cache, needed: nat, key: seq<Token>) returns (j: nat)
    requires c.Valid()
    ensures var c', others := c.Evict(needed, Some(key)), Apart(c.prefixes, key);
      && OldestDropped(|c.alloc.free|, |c'.alloc.free|, others, j, needed)
      && Apart(c'.prefixes, key) == others[j..]
    decreases |c.prefixes|, Leading(c.prefixes, Some(key))
  {
    hide Cache.Valid, PrefixBlocks;
    var protect := Some(key);
    if c.prefixes == [] || |c.alloc.free| >= needed {
      j := 0;
      NothingDropped(c, key, needed);
    } else if Some(c.prefixes[0].key) == protect {
      var e, rest := c.prefixes[0], c.prefixes[1..];
      Rotated(c, key);
      if OnlyProtected(c.Rotate().prefixes, protect) {
        j := 0;
        NothingDropped(c, key, needed);
      } else {
        LeadingRotate(rest, e, protect);
        j := EvictKeepsOrder(c.Rotate(), needed, key);
      }
    } else {
      DropOldestFacts(c);
      var i := EvictKeepsOrder(c.DropOldest(), needed, key);
      OneMoreDropped(|c.alloc.free|, |c.Evict(needed, protect).alloc.free|, c.prefixes[0], Apart(c.prefixes[1..], key),
                     i, needed);
      j := i + 1;
    }
  }

  lemma {:induction false} NothingDropped(c: Cache, key: seq<Token>, needed: nat)
    ensures OldestDropped(|c.alloc.free|, |c.alloc.free|, Apart(c.prefixes, key), 0, needed)
    ensures Apart(c.prefixes, key)[0..] == Apart(c.prefixes, key)
  {
    assert Apart(c.prefixes, key)[..0] == [];
  }

  lemma {:induction false} Rotated(c: Cache, key: seq<Token>)
    requires c.Valid() && c.prefixes != [] && c.prefixes[0].key == key
    ensures c.Rotate().Valid() && c.Rotate().prefixes == c.prefixes[1..] + [c.prefixes[0]]
    ensures Apart(c.Rotate().prefixes, key) == Apart(c.prefixes, key)
    ensures !OnlyProtected(c.Rotate().prefixes, Some(key)) ==>
      exists x :: x in c.prefixes[1..] && Some(x.key) != Some(key)
  {
    MoveToEndValid(c, 0);
    assert c.Rotate().prefixes == c.prefixes[1..] + [c.prefixes[0]];
    ApartConcat(c.prefixes[1..], [c.prefixes[0]], key);
  }

  // -- restore --------------------------------------------------------------------------------

  /**
   * A hit of `n` tokens: its entry is now the most recently used; of the others the oldest `j` are gone, each
   * needed for the blocks of the copy, and the rest are as they were, in their order.
   */
  ghost predicate HitLast(c: Cache, c': Cache, key: seq<Token>, j: nat) {
    var others := Apart(c.prefixes, key);
    && |key| % c.size == 0 && c'.prefixes != [] && c'.prefixes[|c'.prefixes| - 1] in c.prefixes
    && c'.prefixes[|c'.prefixes| - 1].key == key
    && OldestDropped(|c.alloc.free|, |c'.alloc.free| + |key| / c.size, others, j, |key| / c.size)
    && c'.prefixes[..|c'.prefixes| - 1] == others[j..]
    && c'.hits == c.hits + 1 && c'.misses == c.misses
  }

  /** A miss: the dict is untouched, or only the entry that did not fit is left; and it is counted. */
  ghost predicate MissKeeps(c: Cache, c': Cache, tokens: seq<Token>) {
    && (c'.prefixes == c.prefixes || (|c'.prefixes| == 1 && c'.prefixes[0] in c.prefixes &&
                                      c'.prefixes[0].key <= tokens))
    && c'.hits == c.hits && c'.misses == c.misses + if c.limit > 0 && |tokens| > c.size then 1 else 0
  }

  /** The growth of a hit takes the entry's number of blocks off the free list and nothing else. */
  lemma {:induction false} GrowthForCopy(d: Cache, id: nat, e: Entry)
    requires d.Valid() && e in d.prefixes && id in d.tables && d.tables[id] == [] && |e.blocks| <= |d.alloc.free|
    ensures var g := d.EnsureCapacity([(id, e.length)]).1;
      && g.prefixes == d.prefixes && id in g.tables && |g.tables[id]| == |e.blocks|
      && g.hits == d.hits && g.misses == d.misses && |g.alloc.free| + |e.blocks| == |d.alloc.free|
  {
    var required := [(id, e.length)];
    CopyInGrowth(d, id, e);
    BlocksOfEntry(d, e);
    hide Cache.Valid;
    assert required[0] in required;
    assert Additions(d.size, d.tables, required) == [|e.blocks|];
    SumOne(|e.blocks|);
    assert Ids(required) == [id];
    assert [id][..0] == [] && [|e.blocks|][..0] == [];
    assert d.Evict(|e.blocks|, None) == d;
    assert d.EnsureCapacity(required).1 == d.Grow([id], [|e.blocks|]);
    assert d.Grow([id], [|e.blocks|]) == d.GrowOne(id, |e.blocks|);
  }

  /** The rest of a hit, once the table has grown. */
  lemma {:induction false} CopiedLast(c: Cache, d: Cache, id: nat, k: nat, j: nat)
    requires d.Valid() && k < |d.prefixes| && d.prefixes[k] in c.prefixes
    requires id in d.tables && d.tables[id] == [] && d.size == c.size
    requires d.hits == c.hits && d.misses == c.misses && |d.prefixes[k].blocks| <= |d.alloc.free|
    requires |d.prefixes[k].key| % c.size == 0 && |d.prefixes[k].key| / c.size == |d.prefixes[k].blocks|
    requires OldestDropped(|c.alloc.free|, |d.alloc.free|, Apart(c.prefixes, d.prefixes[k].key), j,
                           |d.prefixes[k].blocks|)
    requires Apart(d.prefixes, d.prefixes[k].key) == Apart(c.prefixes, d.prefixes[k].key)[j..]
    ensures var e := d.prefixes[k]; HitLast(c, d.EnsureCapacity([(id, e.length)]).1.CopyIn(id, e, e.length), e.key, j)
  {
    hide Cache.EnsureCapacity, Cache.Valid, OldestDropped, Apart, CopyBlocks;
    var e := d.prefixes[k];
    EntryAlone(d, k);
    GrowthForCopy(d, id, e);
    var c' := d.EnsureCapacity([(id, e.length)]).1.CopyIn(id, e, e.length);
    var others := d.prefixes[..k] + d.prefixes[k + 1..];
    assert c'.prefixes == others + [e];
    assert c'.prefixes[..|c'.prefixes| - 1] == others;
  }

  lemma {:induction false} CandidateOrder(c: Cache, id: nat, e: Entry) returns (j: nat)
    requires c.Valid() && e in c.prefixes && id in c.tables && c.tables[id] == []
    ensures var d := c.Evict(|e.blocks|, Some(e.key));
      if |e.blocks| > |d.alloc.free| then d.prefixes == [e] && d.hits == c.hits && d.misses == c.misses
      else HitLast(c, d.EnsureCapacity([(id, e.length)]).1.CopyIn(id, e, e.length), e.key, j)
  {
    hide Cache.EnsureCapacity, Cache.Evict, Cache.Valid, HitLast, Apart, OldestDropped;
    var d := c.Evict(|e.blocks|, Some(e.key));
    EvictFacts(c, |e.blocks|, Some(e.key));
    j := EvictKeepsOrder(c, |e.blocks|, e.key);
    EntryBlocks(c, e);
    var k :| 0 <= k < |d.prefixes| && d.prefixes[k] == e;
    if |e.blocks| > |d.alloc.free| {
      EntryAlone(d, k);
      ApartNone(d.prefixes, e.key);
      assert d.prefixes[..k] == [] && d.prefixes[k + 1..] == [];
    } else {
      CopiedLast(c, d, id, k, j);
    }
  }

  lemma {:induction false} EntryBlocks(c: Cache, e: Entry)
    requires c.Valid() && e in c.prefixes
    ensures |e.key| == e.length && |e.key| % c.size == 0 && |e.key| / c.size == |e.blocks| && e.blocks != []
  {
    assert c.EntryValid(e);
    MultipleOf(c.size, |e.blocks|, 0);
  }

  /** An entry is found by its key, and everything else is apart from it. */
  lemma {:induction false} EntryAlone(c: Cache, k: nat)
    requires c.Valid() && k < |c.prefixes|
    ensures Find(c.prefixes, c.prefixes[k].key) == Some(k)
    ensures Apart(c.prefixes, c.prefixes[k].key) == c.prefixes[..k] + c.prefixes[k + 1..]
  {
    ApartFromOne(c, k);
    FindMeaning(c.prefixes, c.prefixes[k].key);
  }

  lemma {:induction false} RestoreFromOrder(c: Cache, id: nat, tokens: seq<Token>, k: nat, top: nat) returns (j: nat)
    requires c.Valid() && id in c.tables && c.tables[id] == [] && k <= |tokens|
    requires c.limit > 0 && (top > 0 <==> |tokens| > c.size)
    ensures var (c', n) := c.RestoreFrom(id, tokens, k, top);
      if n > 0 then HitLast(c, c', tokens[..n], j) else MissKeeps(c, c', tokens)
    decreases k
  {
    hide Cache.Valid, HitLast, Cache.EnsureCapacity, Cache.CopyIn, Cache.Evict;
    j := 0;
    if k > 0 {
      match Find(c.prefixes, tokens[..k])
      case None =>
        j := RestoreFromOrder(c, id, tokens, if k < c.size then 0 else k - c.size, top);
      case Some(i) =>
        var e := c.prefixes[i];
        EntryBlocks(c, e);
        j := CandidateOrder(c, id, e);
    }
  }

  /**
   * `restore_prefix` is a use: a hit makes its entry the last to be evicted, drops only the oldest others that
   * the copy needs, and leaves the rest in their order; a miss leaves the order alone.
   */
  lemma {:induction false} RestoreOrder(c: Cache, id: nat, tokens: seq<Token>) returns (j: nat)
    requires c.Valid() && id in c.tables && c.tables[id] == []
    ensures var (c', n) := c.Restore(id, tokens);
      if n > 0 then HitLast(c, c', tokens[..n], j) else MissKeeps(c, c', tokens)
  {
    hide Cache.Valid, HitLast, Cache.RestoreFrom;
    j := 0;
    if c.limit > 0 {
      AlignedPositive(c.size, |tokens|);
      j := RestoreFromOrder(c, id, tokens, Aligned(c.size, |tokens|), Aligned(c.size, |tokens|));
    }
  }

  lemma {:induction false} AlignedPositive(size: Positive, n: nat)
    ensures Aligned(size, n) > 0 <==> n > size
  {
    if n > 0 {
      AlignedBound(size, n);
      if n <= size {
        MultipleOf(size, 0, n - 1);
      }
    }
  }

  // -- store ----------------------------------------------------------------------------------

  /** The oldest entries go until the budget holds one of `blocks` more, and no later. */
  lemma {:induction false} RoomOldestFirst(c: Cache, blocks: nat) returns (j: nat)
    requires c.Valid()
    ensures var c' := c.MakeRoom(blocks);
      && c'.Valid() && SameRequests(c, c') && c'.hits == c.hits && c'.misses == c.misses
      && j <= |c.prefixes| && c'.prefixes == c.prefixes[j..]
      && |c'.alloc.free| == |c.alloc.free| + PrefixBlocks(c.prefixes[..j])
      && (j > 0 ==> PrefixBlocks(c.prefixes[j - 1..]) + blocks > c.limit)
    decreases |c.prefixes|
  {
    hide Cache.Valid;
    if c.prefixes == [] || PrefixBlocks(c.prefixes) + blocks <= c.limit {
      j := 0;
    } else {
      DropOldestFacts(c);
      var i := RoomOldestFirst(c.DropOldest(), blocks);
      assert c.prefixes[..i + 1][1..] == c.prefixes[1..][..i];
      j := i + 1;
      if i > 0 {
        assert c.prefixes[1..][i - 1..] == c.prefixes[i..];
      }
    }
  }

  /** A new entry at the recently used end; the oldest `j` gone, for the budget or for the blocks. */
  ghost predicate StoredLast(c: Cache, c': Cache, key: seq<Token>, j: nat) {
    var blocks := |key| / c.size;
    && j <= |c.prefixes| && |c'.prefixes| == |c.prefixes| - j + 1 && c'.prefixes[..|c.prefixes| - j] == c.prefixes[j..]
    && c'.prefixes[|c.prefixes| - j].key == key && |c'.prefixes[|c.prefixes| - j].blocks| == blocks
    && |c'.alloc.free| + blocks == |c.alloc.free| + PrefixBlocks(c.prefixes[..j])
    && (j > 0 ==> PrefixBlocks(c.prefixes[j - 1..]) + blocks > c.limit ||
                  |c.alloc.free| + PrefixBlocks(c.prefixes[..j - 1]) < blocks)
  }

  lemma {:induction false} TwiceDropped(prefixes: seq<Entry>, i: nat, k: nat)
    requires i + k <= |prefixes|
    ensures prefixes[i..][k..] == prefixes[i + k..]
    ensures PrefixBlocks(prefixes[..i]) + PrefixBlocks(prefixes[i..][..k]) == PrefixBlocks(prefixes[..i + k])
  {
    assert prefixes[..i + k] == prefixes[..i] + prefixes[i..][..k];
    PrefixBlocksConcat(prefixes[..i], prefixes[i..][..k]);
  }

  /** The oldest `j` entries are gone, each for the budget or for the blocks. */
  ghost predicate MadeRoom(c: Cache, d: Cache, j: nat, blocks: nat) {
    && SameRequests(c, d) && d.hits == c.hits && d.misses == c.misses
    && j <= |c.prefixes| && d.prefixes == c.prefixes[j..]
    && |d.alloc.free| == |c.alloc.free| + PrefixBlocks(c.prefixes[..j])
    && (j > 0 ==> PrefixBlocks(c.prefixes[j - 1..]) + blocks > c.limit ||
                  |c.alloc.free| + PrefixBlocks(c.prefixes[..j - 1]) < blocks)
  }

  lemma {:induction false} RoomOrder(c: Cache, blocks: nat) returns (j: nat)
    requires c.Valid()
    ensures var d := c.MakeRoom(blocks).Evict(blocks, None);
      && d.Valid() && MadeRoom(c, d, j, blocks)
      && (blocks > |d.alloc.free| ==> d.prefixes == [])
  {
    hide Cache.Valid, Cache.MakeRoom, Cache.Evict, PrefixBlocks;
    var r := c.MakeRoom(blocks);
    var i := RoomOldestFirst(c, blocks);
    EvictFacts(r, blocks, None);
    var k := EvictIsOldestFirst(r, blocks);
    j := i + k;
    TwiceDropped(c.prefixes, i, k);
    if k > 0 {
      TwiceDropped(c.prefixes, i, k - 1);
    }
    if blocks > |r.Evict(blocks, None).alloc.free| {
      NoneProtected(r.Evict(blocks, None).prefixes);
    }
  }

  lemma {:induction false} CopyOutLast(d: Cache, id: nat, key: seq<Token>, blocks: nat)
    requires d.Valid() && id in d.lengths && d.lengths[id] >= |key| && blocks <= |d.alloc.free|
    requires |key| % d.size == 0 && blocks == |key| / d.size
    ensures var c' := d.CopyOut(id, key, blocks);
      && c'.hits == d.hits && c'.misses == d.misses && |c'.alloc.free| + blocks == |d.alloc.free|
      && exists e :: c'.prefixes == d.prefixes + [e] && e.key == key && |e.blocks| == blocks
  {
    BlocksForMonotone(d.size, |key|, d.lengths[id]);
    WholeBlocks(d.size, |key|);
    hide Cache.Valid, CopyBlocks;
    var c' := d.CopyOut(id, key, blocks);
    assert c'.prefixes == d.prefixes + [Entry(key, d.serial + 1, d.alloc.Popped(blocks), |key|)];
  }

  lemma {:induction false} StoreNewOrder(c: Cache, id: nat, key: seq<Token>, blocks: nat) returns (j: nat)
    requires c.Valid() && id in c.lengths && c.lengths[id] >= |key|
    requires |key| % c.size == 0 && blocks == |key| / c.size
    ensures var d := c.MakeRoom(blocks).Evict(blocks, None);
      if blocks > |d.alloc.free| then d.prefixes == [] && d.hits == c.hits && d.misses == c.misses
      else
        var c' := d.CopyOut(id, key, blocks);
        StoredLast(c, c', key, j) && c'.hits == c.hits && c'.misses == c.misses
  {
    hide Cache.Valid, Cache.MakeRoom, Cache.Evict, Cache.CopyOut, PrefixBlocks;
    j := RoomOrder(c, blocks);
    var d := c.MakeRoom(blocks).Evict(blocks, None);
    if blocks <= |d.alloc.free| {
      CopyOutLast(d, id, key, blocks);
    }
  }

  /**
   * What `store_prefix` leaves of the dict: a cached prefix becomes the most recently used entry, the others in
   * their order; a new one joins at that end, in the place of the oldest ones that the budget or the pool needs;
   * nothing else is dropped unless everything was and it was not enough.
   */
  lemma {:induction false} StoreOrder(c: Cache, id: nat, tokens: seq<Token>) returns (j: nat)
    requires c.Valid()
    ensures var (c', n), key := c.Store(id, tokens), tokens[..Aligned(c.size, |tokens|)];
      && c'.hits == c.hits && c'.misses == c.misses
      && (n == 0 ==> c'.prefixes == c.prefixes || (c'.prefixes == [] && |c'.alloc.free| < |key| / c.size))
      && (n > 0 && Cached(c.prefixes, key) ==>
            exists e :: e in c.prefixes && e.key == key && c' == c.(prefixes := Apart(c.prefixes, key) + [e]))
      && (n > 0 && !Cached(c.prefixes, key) ==> StoredLast(c, c', key, j))
  {
    hide Cache.Valid, Cache.CopyOut, Cache.MakeRoom, Cache.Evict, StoredLast, Apart;
    var length := Aligned(c.size, |tokens|);
    var blocks, key := length / c.size, tokens[..length];
    j := 0;
    FindMeaning(c.prefixes, key);
    if 0 < length && blocks <= c.limit {
      match Find(c.prefixes, key)
      case Some(k) =>
        EntryAlone(c, k);
        assert MoveToEnd(c.prefixes, k) == Apart(c.prefixes, key) + [c.prefixes[k]];
      case None =>
        if id in c.lengths && c.lengths[id] >= length {
          j := StoreNewOrder(c, id, key, blocks);
        }
    }
  }

  // -- growth ---------------------------------------------------------------------------------

  /**
   * Growing for a plan evicts the oldest entries first and none that it need not: on success the rest is in its
   * order, and exactly the blocks asked for have left the free list; a full cache has lost every entry; an unknown
   * request costs nothing.
   */
  lemma {:induction false} GrowthOrder(c: Cache, required: seq<(nat, nat)>) returns (j: nat)
    requires c.Valid()
    ensures var (error, c') := c.EnsureCapacity(required); var need := Sum(Additions(c.size, c.tables, required));
      && c'.hits == c.hits && c'.misses == c.misses
      && (error.None? ==> j <= |c.prefixes| && c'.prefixes == c.prefixes[j..] &&
                          |c'.alloc.free| + need == |c.alloc.free| + PrefixBlocks(c.prefixes[..j]) &&
                          (j > 0 ==> |c.alloc.free| + PrefixBlocks(c.prefixes[..j - 1]) < need))
      && (error == Some(Full) ==> c'.prefixes == [] && |c'.alloc.free| < need)
      && (error == Some(NoTable) ==> c' == c)
  {
    hide Cache.Valid, Cache.Evict, Cache.Grow, PrefixBlocks;
    var need := Sum(Additions(c.size, c.tables, required));
    j := EvictIsOldestFirst(c, need);
    EvictFacts(c, need, None);
    var d := c.Evict(need, None);
    if need <= |d.alloc.free| {
      GrowTakes(d, Ids(required), Additions(c.size, c.tables, required));
    } else {
      NoneProtected(d.prefixes);
    }
  }

  lemma {:induction false} GrowTakes(c: Cache, ids: seq<nat>, counts: seq<nat>)
    requires |ids| == |counts| && Sum(counts) <= |c.alloc.free|
    ensures c.Grow(ids, counts).prefixes == c.prefixes && c.Grow(ids, counts).hits == c.hits
    ensures c.Grow(ids, counts).misses == c.misses
    decreases |ids|
  {
    if ids != [] {
      GrowTakes(c, ids[..|ids| - 1], counts[..|ids| - 1]);
    }
  }
}
