/** Every cache operation keeps the block partition; eviction, growth and capacity, precisely. */
module KvCacheValid {
  import opened Lists
  import opened Allocator
  import opened Transformer
  import opened KvCache

  /** Nothing a request can see has changed: tables, lengths and pool. */
  ghost predicate SameRequests(c: Cache, c': Cache) {
    c'.size == c.size && c'.limit == c.limit && c'.alloc.total == c.alloc.total &&
    c'.tables == c.tables && c'.lengths == c.lengths && c'.pool == c.pool
  }

  // -- the ordered prefix dict ----------------------------------------------

  lemma {:induction false} PrefixBlocksConcat(a: seq<Entry>, b: seq<Entry>)
    ensures PrefixBlocks(a + b) == PrefixBlocks(a) + PrefixBlocks(b)
  {
    if a == [] {
      assert a + b == b;
    } else {
      assert (a + b)[1..] == a[1..] + b;
      PrefixBlocksConcat(a[1..], b);
    }
  }

  lemma {:induction false} MoveToEndFacts(prefixes: seq<Entry>, k: nat)
    requires k < |prefixes|
    ensures PrefixBlocks(MoveToEnd(prefixes, k)) == PrefixBlocks(prefixes)
    ensures forall e :: e in MoveToEnd(prefixes, k) <==> e in prefixes
  {
    var a, e, b := prefixes[..k], prefixes[k], prefixes[k + 1..];
    assert prefixes == a + ([e] + b);
    PrefixBlocksConcat(a, [e] + b);
    PrefixBlocksConcat([e], b);
    PrefixBlocksConcat(a + b, [e]);
    PrefixBlocksConcat(a, b);
    assert MoveToEnd(prefixes, k) == (a + b) + [e];
  }

  lemma {:induction false} MoveToEndValid(c: Cache, k: nat)
    requires c.Valid() && k < |c.prefixes|
    ensures c.(prefixes := MoveToEnd(c.prefixes, k)).Valid()
  {
    var c' := c.(prefixes := MoveToEnd(c.prefixes, k));
    MoveToEndFacts(c.prefixes, k);
    var n := |c.prefixes|;
    assert forall i :: 0 <= i < n ==>
      c'.prefixes[i] == c.prefixes[if i < k then i else if i < n - 1 then i + 1 else k];
    forall e | e in c'.prefixes ensures c'.EntryValid(e) {
      assert c.EntryValid(e);
    }
  }

  /** Counters, pool contents and lengths within the tables play no part in validity. */
  lemma {:induction false} ValidFrame(c: Cache, c': Cache)
    requires c.Valid() && c'.PoolValid()
    requires c'.size == c.size && c'.limit == c.limit && c'.alloc == c.alloc && c'.tables == c.tables
    requires c'.prefixes == c.prefixes && c'.serial == c.serial
    requires forall r :: r in c'.lengths <==> r in c.tables
    requires forall r :: r in c'.lengths ==>
      c'.lengths[r] == c.lengths[r] || BlocksFor(c.size, c'.lengths[r]) <= |c.tables[r]|
    ensures c'.Valid()
  {
    forall e | e in c'.prefixes ensures c'.EntryValid(e) {
      assert c.EntryValid(e);
    }
  }

  lemma {:induction false} DropOldestFacts(c: Cache)
    requires c.Valid() && c.prefixes != []
    ensures c.DropOldest().Valid() && SameRequests(c, c.DropOldest())
    ensures c.alloc.FreeCheck(c.prefixes[0].blocks, Prefix(c.prefixes[0].serial)).None?
    ensures |c.DropOldest().alloc.free| == |c.alloc.free| + |c.prefixes[0].blocks|
  {
    var e := c.prefixes[0];
    assert c.EntryValid(e);
    FreeAllFacts(c.alloc, Prefix(e.serial));
    assert c.prefixes == [e] + c.prefixes[1..];
    DroppedEntries(c, c.DropOldest());
  }

  /** The entries left after the oldest one's owner has given up its blocks. */
  lemma {:induction false} DroppedEntries(c: Cache, c': Cache)
    requires c.PrefixesValid() && c.prefixes != [] && c'.prefixes == c.prefixes[1..]
    requires c'.size == c.size && c'.limit == c.limit && c'.serial == c.serial
    requires c'.alloc.OwnedBy(Prefix(c.prefixes[0].serial)) == []
    requires forall o :: o != Prefix(c.prefixes[0].serial) ==> c'.alloc.OwnedBy(o) == c.alloc.OwnedBy(o)
    ensures c'.PrefixesValid()
  {
    var e := c.prefixes[0];
    assert c.prefixes == [e] + c'.prefixes;
    forall x | x in c'.prefixes ensures c'.EntryValid(x) {
      assert c.EntryValid(x);
    }
    forall n | forall x :: x in c'.prefixes ==> x.serial != n ensures c'.alloc.OwnedBy(Prefix(n)) == [] {
      assert n == e.serial || forall x :: x in c.prefixes ==> x.serial != n;
    }
  }

  /**
   * Eviction never touches a request, keeps the protected entry, drops entries only, and stops either with
   * enough free blocks or with nothing left to drop.
   */
  lemma {:induction false} EvictFacts(c: Cache, needed: nat, protect: Option<seq<Token>>)
    requires c.Valid()
    ensures var c' := c.Evict(needed, protect);
      && c'.Valid() && SameRequests(c, c') && c'.serial == c.serial
      && c'.hits == c.hits && c'.misses == c.misses
      && (forall e :: e in c'.prefixes ==> e in c.prefixes)
      && (forall e :: e in c.prefixes && Some(e.key) == protect ==> e in c'.prefixes)
      && |c'.alloc.free| >= |c.alloc.free|
      && (|c'.alloc.free| >= needed || OnlyProtected(c'.prefixes, protect))
    decreases |c.prefixes|, Leading(c.prefixes, protect)
  {
    if c.prefixes == [] || |c.alloc.free| >= needed {
    } else {
      assert c.prefixes == [c.prefixes[0]] + c.prefixes[1..];
      if Some(c.prefixes[0].key) == protect {
        MoveToEndFacts(c.prefixes, 0);
        MoveToEndValid(c, 0);
        assert c.Rotate().prefixes == c.prefixes[1..] + [c.prefixes[0]];
        if !OnlyProtected(c.Rotate().prefixes, protect) {
          LeadingRotate(c.prefixes[1..], c.prefixes[0], protect);
          EvictFacts(c.Rotate(), needed, protect);
        }
      } else {
        DropOldestFacts(c);
        EvictFacts(c.DropOldest(), needed, protect);
      }
    }
  }

  /** Unprotected eviction is least-recently-used first, and drops no entry it did not need to. */
  lemma {:induction false} EvictIsOldestFirst(c: Cache, needed: nat) returns (k: nat)
    requires c.Valid()
    ensures k <= |c.prefixes| && c.Evict(needed, None).prefixes == c.prefixes[k..]
    ensures |c.Evict(needed, None).alloc.free| == |c.alloc.free| + PrefixBlocks(c.prefixes[..k])
    ensures k > 0 ==> |c.alloc.free| + PrefixBlocks(c.prefixes[..k - 1]) < needed
    decreases |c.prefixes|
  {
    if c.prefixes == [] || |c.alloc.free| >= needed {
      k := 0;
    } else {
      hide Cache.Valid;
      DropOldestFacts(c);
      k := EvictIsOldestFirst(c.DropOldest(), needed);
      var tail := c.prefixes[1..];
      assert c.prefixes[..k + 1][1..] == tail[..k];
      if k > 0 {
        assert c.prefixes[..k][1..] == tail[..k - 1];
      }
      k := k + 1;
    }
  }

  // -- growth ----------------------------------------------------------------

  lemma {:induction false} GrowOneFacts(c: Cache, id: nat, count: nat)
    requires c.Valid() && count <= |c.alloc.free| && id in c.tables
    ensures c.GrowOne(id, count).Valid()
  {
    AllocateFacts(c.alloc, Request(id), count);
    var c' := c.GrowOne(id, count);
    forall e | e in c'.prefixes ensures c'.EntryValid(e) {
      assert c.EntryValid(e);
    }
  }

  /** Each named table has got its count of blocks at its end, nothing else has changed. */
  ghost predicate GrownBy(c: Cache, c': Cache, ids: seq<nat>, counts: seq<nat>)
    requires |ids| == |counts|
  {
    && c'.(alloc := c.alloc, tables := c.tables) == c && c'.alloc.total == c.alloc.total
    && (forall r :: r in c'.tables <==> r in c.tables)
    && (forall r :: r in c.tables ==> c.tables[r] <= c'.tables[r])
    && (forall r :: r in c.tables && r !in ids ==> c'.tables[r] == c.tables[r])
    && (forall i :: 0 <= i < |ids| ==> ids[i] in c.tables && |c'.tables[ids[i]]| == |c.tables[ids[i]]| + counts[i])
  }

  lemma {:induction false} GrownBySnoc(c: Cache, mid: Cache, ids: seq<nat>, counts: seq<nat>, id: nat, count: nat)
    requires |ids| == |counts| && GrownBy(c, mid, ids, counts)
    requires id in c.tables && id !in ids && count <= |mid.alloc.free|
    ensures GrownBy(c, mid.GrowOne(id, count), ids + [id], counts + [count])
  {
  }

  /** Growing several tables: each named table gets its count of blocks at its end, nothing else changes. */
  lemma {:induction false} GrowFacts(c: Cache, ids: seq<nat>, counts: seq<nat>)
    requires c.Valid() && |ids| == |counts| && Sum(counts) <= |c.alloc.free| && NoDup(ids)
    requires forall r :: r in ids ==> r in c.tables
    ensures c.Grow(ids, counts).Valid() && GrownBy(c, c.Grow(ids, counts), ids, counts)
  {
    if ids != [] {
      hide Cache.Valid;
      var n := |ids| - 1;
      assert ids == ids[..n] + [ids[n]] && counts == counts[..n] + [counts[n]];
      assert ids[n] !in ids[..n];
      GrowFacts(c, ids[..n], counts[..n]);
      var mid := c.Grow(ids[..n], counts[..n]);
      GrowOneFacts(mid, ids[n], counts[n]);
      GrownBySnoc(c, mid, ids[..n], counts[..n], ids[n], counts[n]);
    }
  }

  lemma {:induction false} GrowRequired(c: Cache, required: seq<(nat, nat)>)
    requires c.Valid() && NoDup(Ids(required)) && AllTables(c, required)
    requires Sum(Additions(c.size, c.tables, required)) <= |c.alloc.free|
    ensures var c' := c.Grow(Ids(required), Additions(c.size, c.tables, required));
      && c'.Valid() && GrownBy(c, c', Ids(required), Additions(c.size, c.tables, required))
      && (forall i :: 0 <= i < |required| ==>
            && required[i].0 in c.tables
            && |c'.tables[required[i].0]| == Larger(|c.tables[required[i].0]|, BlocksFor(c.size, required[i].1)))
  {
    hide Cache.Valid;
    var ids, counts := Ids(required), Additions(c.size, c.tables, required);
    forall r | r in ids ensures r in c.tables {
      var i :| 0 <= i < |ids| && ids[i] == r;
      assert required[i] in required;
    }
    GrowFacts(c, ids, counts);
    forall i | 0 <= i < |required|
      ensures required[i].0 in c.tables
      ensures |c.Grow(ids, counts).tables[required[i].0]| ==
              Larger(|c.tables[required[i].0]|, BlocksFor(c.size, required[i].1)) {
      assert required[i] in required && ids[i] == required[i].0;
    }
  }

  ghost predicate AllTables(c: Cache, required: seq<(nat, nat)>) {
    forall r :: r in required ==> r.0 in c.tables
  }

  /**
   * `ensure_capacity_batch` is a transaction. On success every named table reaches its requirement and only
   * grows at its end; on failure no table, length, pool slot or request-owned block has changed and every
   * prefix entry is gone.
   */
  lemma {:induction false} EnsureCapacityFacts(c: Cache, required: seq<(nat, nat)>)
    requires c.Valid() && NoDup(Ids(required))
    ensures var (error, c') := c.EnsureCapacity(required);
      && c'.Valid()
      && c'.size == c.size && c'.limit == c.limit && c'.alloc.total == c.alloc.total
      && c'.lengths == c.lengths && c'.pool == c.pool && c'.serial == c.serial
      && (forall e :: e in c'.prefixes ==> e in c.prefixes)
      && (forall r :: r in c'.tables <==> r in c.tables)
      && (forall r :: r in c.tables ==> c.tables[r] <= c'.tables[r])
      && (error == Some(NoTable) <==> !AllTables(c, required))
      && (error != None ==> SameRequests(c, c'))
      && (error == Some(Full) ==> c'.prefixes == [])
      && (error == None ==>
          && (forall r :: r in c.tables && r !in Ids(required) ==> c'.tables[r] == c.tables[r])
          && (forall i :: 0 <= i < |required| ==>
                |c'.tables[required[i].0]| == Larger(|c.tables[required[i].0]|, BlocksFor(c.size, required[i].1))))
  {
    if AllTables(c, required) {
      var counts := Additions(c.size, c.tables, required);
      EvictFacts(c, Sum(counts), None);
      var mid := c.Evict(Sum(counts), None);
      if Sum(counts) <= |mid.alloc.free| {
        GrowRequired(mid, required);
      } else {
        NoneProtected(mid.prefixes);
      }
    }
  }

  lemma {:induction false} NoneProtected(prefixes: seq<Entry>)
    requires OnlyProtected(prefixes, None)
    ensures prefixes == []
  {
    NoMembers(prefixes);
  }

  function Larger(a: nat, b: nat): nat {
    if a >= b then a else b
  }

  // -- conservation ----------------------------------------------------------

  /** Blocks held by the listed requests. */
  function TableBlocks(c: Cache, ids: seq<nat>): nat {
    if ids == [] then 0 else
    TableBlocks(c, ids[..|ids| - 1]) +
    (if ids[|ids| - 1] in c.tables then |c.tables[ids[|ids| - 1]]| else 0)
  }

  /** `ids` lists the resident requests, each once. */
  ghost predicate ListsResidents(c: Cache, ids: seq<nat>) {
    NoDup(ids) && forall r :: r in ids <==> r in c.tables
  }

  /** All blocks named by the tables in the order of `ids`, then by the prefix entries. */
  function AllTableBlocks(c: Cache, ids: seq<nat>): seq<nat> {
    if ids == [] then [] else
    AllTableBlocks(c, ids[..|ids| - 1]) + (if ids[|ids| - 1] in c.tables then c.tables[ids[|ids| - 1]] else [])
  }

  function AllPrefixBlocks(prefixes: seq<Entry>): seq<nat> {
    if prefixes == [] then [] else prefixes[0].blocks + AllPrefixBlocks(prefixes[1..])
  }

  lemma {:induction false} AllTableBlocksFacts(c: Cache, ids: seq<nat>)
    requires c.Valid() && NoDup(ids)
    ensures |AllTableBlocks(c, ids)| == TableBlocks(c, ids) && NoDup(AllTableBlocks(c, ids))
    ensures forall b :: b in AllTableBlocks(c, ids) <==>
              b in c.alloc.owner && c.alloc.owner[b].Request? && c.alloc.owner[b].id in ids
  {
    if ids != [] {
      var init, last := ids[..|ids| - 1], ids[|ids| - 1];
      assert ids == init + [last];
      AllTableBlocksFacts(c, init);
      OwnedFacts(c.alloc.keys, c.alloc.owner, Request(last));
      var table := c.alloc.OwnedBy(Request(last));
      assert AllTableBlocks(c, ids) == AllTableBlocks(c, init) + table;
      NoDupConcat(AllTableBlocks(c, init), table);
    }
  }

  lemma {:induction false} AllPrefixBlocksFacts(c: Cache, k: nat)
    requires c.Valid() && k <= |c.prefixes|
    ensures var bs := AllPrefixBlocks(c.prefixes[k..]);
      && |bs| == PrefixBlocks(c.prefixes[k..]) && NoDup(bs)
      && (forall b :: b in bs <==> exists i :: k <= i < |c.prefixes| && b in c.prefixes[i].blocks)
    decreases |c.prefixes| - k
  {
    if k < |c.prefixes| {
      assert c.prefixes[k..][1..] == c.prefixes[k + 1..];
      AllPrefixBlocksFacts(c, k + 1);
      var e, rest := c.prefixes[k], AllPrefixBlocks(c.prefixes[k + 1..]);
      assert c.EntryValid(e);
      OwnedFacts(c.alloc.keys, c.alloc.owner, Prefix(e.serial));
      forall b | b in rest ensures b !in e.blocks {
        var i :| k + 1 <= i < |c.prefixes| && b in c.prefixes[i].blocks;
        assert c.EntryValid(c.prefixes[i]);
        OwnersDisjoint(c.alloc, Prefix(c.prefixes[i].serial), Prefix(e.serial));
      }
      NoDupConcat(e.blocks, rest);
    }
  }

  lemma {:induction false} PrefixOwned(c: Cache, b: nat)
    requires c.Valid()
    ensures (exists i :: 0 <= i < |c.prefixes| && b in c.prefixes[i].blocks) <==>
            b in c.alloc.owner && c.alloc.owner[b].Prefix?
  {
    if i :| 0 <= i < |c.prefixes| && b in c.prefixes[i].blocks {
      assert c.EntryValid(c.prefixes[i]);
      OwnedFacts(c.alloc.keys, c.alloc.owner, Prefix(c.prefixes[i].serial));
    }
    if b in c.alloc.owner && c.alloc.owner[b].Prefix? {
      var n := c.alloc.owner[b].serial;
      OwnedFacts(c.alloc.keys, c.alloc.owner, Prefix(n));
      assert b in c.alloc.OwnedBy(Prefix(n));
      var e :| e in c.prefixes && e.serial == n;
      assert c.EntryValid(e);
      var i :| 0 <= i < |c.prefixes| && c.prefixes[i] == e;
      assert b in c.prefixes[i].blocks;
    }
  }

  /**
   * Block conservation: the free list, the tables and the prefix entries, laid end to end, name every
   * physical block exactly once.
   */
  lemma {:induction false} BlockConservation(c: Cache, ids: seq<nat>)
    requires c.Valid() && ListsResidents(c, ids)
    ensures var all := c.alloc.free + AllTableBlocks(c, ids) + AllPrefixBlocks(c.prefixes);
      NoDup(all) && |all| == c.alloc.total && forall b: nat :: b < c.alloc.total <==> b in all
    ensures |c.alloc.free| + TableBlocks(c, ids) + PrefixBlocks(c.prefixes) == c.alloc.total
  {
    hide Cache.TablesValid, Cache.PrefixesValid, Cache.PoolValid;
    var tabs, pres := AllTableBlocks(c, ids), AllPrefixBlocks(c.prefixes);
    OwnedBlocks(c, ids);
    var owned := tabs + pres;
    SameMembersSameLength(owned, c.alloc.keys);
    NoDupConcat(c.alloc.free, owned);
    var all := c.alloc.free + tabs + pres;
    assert all == c.alloc.free + owned;
    BlocksPartitioned(c.alloc);
  }

  /** Tables and prefix entries together list every owned block once. */
  lemma {:induction false} OwnedBlocks(c: Cache, ids: seq<nat>)
    requires c.Valid() && ListsResidents(c, ids)
    ensures var owned := AllTableBlocks(c, ids) + AllPrefixBlocks(c.prefixes);
      && NoDup(owned) && |owned| == TableBlocks(c, ids) + PrefixBlocks(c.prefixes)
      && forall b :: b in owned <==> b in c.alloc.keys
  {
    var tabs, pres := AllTableBlocks(c, ids), AllPrefixBlocks(c.prefixes);
    AllTableBlocksFacts(c, ids);
    assert c.prefixes[0..] == c.prefixes;
    AllPrefixBlocksFacts(c, 0);
    forall b ensures b in pres <==> b in c.alloc.owner && c.alloc.owner[b].Prefix? {
      PrefixOwned(c, b);
    }
    forall b | b in c.alloc.owner && c.alloc.owner[b].Request? ensures c.alloc.owner[b].id in ids {
      RequestOwned(c, b);
    }
    NoDupConcat(tabs, pres);
  }

  lemma {:induction false} RequestOwned(c: Cache, b: nat)
    requires c.Valid() && b in c.alloc.owner && c.alloc.owner[b].Request?
    ensures c.alloc.owner[b].id in c.tables
  {
    var r := c.alloc.owner[b].id;
    OwnedFacts(c.alloc.keys, c.alloc.owner, Request(r));
    assert b in c.alloc.OwnedBy(Request(r));
  }

  // -- the prefix cache is transparent to capacity ----------------------------

  /** The same cache with prefix caching's blocks all given back. */
  function NoPrefixes(c: Cache): Cache
    decreases |c.prefixes|
  {
    if c.prefixes == [] then c else NoPrefixes(c.DropOldest())
  }

  lemma {:induction false} NoPrefixesFacts(c: Cache)
    requires c.Valid()
    ensures NoPrefixes(c).Valid() && SameRequests(c, NoPrefixes(c)) && NoPrefixes(c).prefixes == []
    decreases |c.prefixes|
  {
    if c.prefixes != [] {
      DropOldestFacts(c);
      NoPrefixesFacts(c.DropOldest());
    }
  }

  /** Growth fails for capacity exactly when the requests' own blocks and additions exceed the pool. */
  lemma {:induction false} FullExactly(c: Cache, required: seq<(nat, nat)>, ids: seq<nat>)
    requires c.Valid() && NoDup(Ids(required)) && AllTables(c, required) && ListsResidents(c, ids)
    ensures c.EnsureCapacity(required).0 == Some(Full) <==>
            TableBlocks(c, ids) + Sum(Additions(c.size, c.tables, required)) > c.alloc.total
  {
    var need := Sum(Additions(c.size, c.tables, required));
    EvictFacts(c, need, None);
    var mid := c.Evict(need, None);
    TableBlocksSame(c, mid, ids);
    BlockConservation(mid, ids);
    if need > |mid.alloc.free| {
      NoneProtected(mid.prefixes);
    }
  }

  lemma {:induction false} TableBlocksSame(c: Cache, c': Cache, ids: seq<nat>)
    requires c.tables == c'.tables
    ensures TableBlocks(c, ids) == TableBlocks(c', ids)
  {
    if ids != [] {
      TableBlocksSame(c, c', ids[..|ids| - 1]);
    }
  }

  /** Growth fails with the prefix cache exactly when it fails without it. */
  lemma {:induction false} PrefixCacheTransparent(c: Cache, required: seq<(nat, nat)>, ids: seq<nat>)
    requires c.Valid() && NoDup(Ids(required)) && ListsResidents(c, ids)
    ensures c.EnsureCapacity(required).0 == NoPrefixes(c).EnsureCapacity(required).0
  {
    NoPrefixesFacts(c);
    if AllTables(c, required) {
      FullExactly(c, required, ids);
      FullExactly(NoPrefixes(c), required, ids);
      TableBlocksSame(c, NoPrefixes(c), ids);
    }
  }

  // -- reserve and release ----------------------------------------------------

  /** A fresh request always gets its empty table. */
  lemma {:induction false} ReserveFacts(c: Cache, id: nat)
    requires c.Valid() && id !in c.tables
    ensures c.CanReserve(id, 0) && c.Reserve(id, 0).Valid()
    ensures c.Reserve(id, 0).tables == c.tables[id := []] && c.Reserve(id, 0).alloc == c.alloc
  {
    assert BlocksFor(c.size, 0) == 0 by {
      BlocksForExact(c.size, 0);
    }
    var a := c.alloc.Allocate(Request(id), 0);
    assert c.alloc.Popped(0) == [];
    assert a.keys == c.alloc.keys && a.owner == c.alloc.owner && a.free == c.alloc.free;
    var c' := c.Reserve(id, 0);
    forall e | e in c'.prefixes ensures c'.EntryValid(e) {
      assert c.EntryValid(e);
    }
  }

  lemma {:induction false} ReleaseFacts(c: Cache, id: nat)
    requires c.Valid()
    ensures var c' := c.Release(id);
      && c'.Valid()
      && c'.tables == c.tables - {id} && c'.lengths == c.lengths - {id}
      && c'.(alloc := c.alloc, tables := c.tables, lengths := c.lengths) == c
      && |c'.alloc.free| == |c.alloc.free| + (if id in c.tables then |c.tables[id]| else 0)
  {
    hide Blocks.Valid, Blocks.OwnedBy, PrefixBlocks;
    FreeAllFacts(c.alloc, Request(id));
    var c' := c.Release(id);
    forall e | e in c'.prefixes ensures c'.EntryValid(e) {
      assert c.EntryValid(e);
    }
  }
}
