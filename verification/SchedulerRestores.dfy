/** What a request reuses when it is admitted, and what it leaves for reuse when it ends. */
module SchedulerRestores {
  import opened Lists
  import opened Allocator
  import opened Transformer
  import opened KvCache
  import opened KvCacheValid
  import opened KvCacheContent
  import opened KvCacheRecency
  import opened Scheduling
  import opened SchedulerCore
  import opened SchedulerRecords
  import opened SchedulerQueue
  import opened SchedulerRun
  import opened SchedulerEffects

  // -- leaving ------------------------------------------------------------------------------------

  /** The block-aligned part of a prompt that is worth retaining. */
  function Retained(c: Cache, prompt: seq<Token>): seq<Token> {
    prompt[..Aligned(c.size, |prompt|)]
  }

  /** A retained prefix fits the budget, and is cached already or fed and small enough for the pool. */
  predicate Retainable(c: Cache, r: Req, residents: seq<nat>) {
    var key := Retained(c, r.prompt);
    && key != [] && |key| / c.size <= c.limit
    && ((exists e | e in c.prefixes :: e.key == key) ||
        (r.fed >= |key| && TableBlocks(c, residents) + |key| / c.size <= c.alloc.total))
  }

  /** The retained prefix is the most recently used one; or nothing has changed, or all has been evicted in vain. */
  ghost predicate Leaves(c: Cache, d: Cache, r: Req, residents: seq<nat>) {
    if Retainable(c, r, residents)
    then d.prefixes != [] && d.prefixes[|d.prefixes| - 1].key == Retained(c, r.prompt)
    else d.prefixes == c.prefixes || d.prefixes == []
  }

  lemma {:induction false} TeardownLeaves(c: Cache, i: nat, r: Req, residents: seq<nat>)
    requires c.Valid() && ListsResidents(c, residents) && r.fed == if i in c.lengths then c.lengths[i] else 0
    ensures Leaves(c, Teardown(c, i, r.prompt), r, residents)
  {
    hide Cache.Valid, Cache.Store, TableBlocks, NoDup, StoredLast;
    StoredExactly(c, i, r.prompt, residents);
    var j := StoreOrder(c, i, r.prompt);
    AlignedPositive(c.size, |r.prompt|);
  }

  /**
   * A request that ends leaves its prompt behind as the most recently used prefix, exactly when that is cached
   * already, or has been fed and there is room for it; otherwise the prefix cache is as it was, or has been
   * emptied in vain.
   */
  lemma {:induction false} CancelRetains(m: Model, cfg: Config, s: Sys, i: nat, now: int)
    requires Inv(m, cfg, s) && i < |s.reqs| && !s.Get(i).Terminal() && i !in s.InFlight()
    ensures Leaves(s.cache, Step(m, cfg, s, ECancel(i, now)).cache, s.Get(i), s.active)
  {
    hide Inv, CacheOk, Places, Leaves, Teardown;
    InvParts(m, cfg, s);
    CommittedIsFed(m, cfg, s, i);
    CancelledCache(m, cfg, s, i, now);
    TeardownLeaves(s.cache, i, s.reqs[i], s.active);
  }

  lemma {:induction false} CommittedIsFed(m: Model, cfg: Config, s: Sys, i: nat)
    requires Inv(m, cfg, s) && i < |s.reqs| && !s.Get(i).Terminal()
    ensures s.cache.Valid() && ListsResidents(s.cache, s.active)
    ensures s.Get(i).fed == if i in s.cache.lengths then s.cache.lengths[i] else 0
  {
    hide Agrees, AllFaithful, Flight;
    assert i in s.active ==> LengthOk(s, i);
  }

  // -- joining ------------------------------------------------------------------------------------

  /**
   * `n` is what a prompt can reuse: the length of the longest cached prefix that leaves something to feed, if a
   * copy of it fits next to the entry itself and the residents' blocks; otherwise nothing.
   */
  ghost predicate Reusable(c: Cache, residents: seq<nat>, prompt: seq<Token>, n: nat) {
    && n % c.size == 0 && n < |prompt|
    && (n > 0 ==> Cached(c.prefixes, prompt[..n]) && NoneLonger(c, prompt, n, |prompt| - 1) &&
                  TableBlocks(c, residents) + 2 * (n / c.size) <= c.alloc.total)
    && (n == 0 ==> NoneLonger(c, prompt, 0, |prompt| - 1) || exists k: nat :: TooLong(c, residents, prompt, k))
  }

  /** The longest cached prefix has `k` tokens, and there is no room for its copy. */
  ghost predicate TooLong(c: Cache, residents: seq<nat>, prompt: seq<Token>, k: nat) {
    && 0 < k < |prompt| && Cached(c.prefixes, prompt[..k]) && NoneLonger(c, prompt, k, |prompt| - 1)
    && TableBlocks(c, residents) + 2 * (k / c.size) > c.alloc.total
  }

  lemma {:induction false} OneEntry(prefixes: seq<Entry>, e: Entry)
    requires e in prefixes
    ensures PrefixBlocks(prefixes) >= |e.blocks|
    ensures |prefixes| == 1 ==> PrefixBlocks(prefixes) == |e.blocks|
  {
    assert prefixes == [prefixes[0]] + prefixes[1..];
    if prefixes[0] != e {
      OneEntry(prefixes[1..], e);
    }
  }

  lemma {:induction false} OnlyOneLeft(c: Cache, e: Entry)
    requires c.Valid() && OnlyProtected(c.prefixes, Some(e.key)) && e in c.prefixes
    ensures |c.prefixes| == 1
  {
    assert |c.prefixes| < 2 || c.prefixes[0].key != c.prefixes[1].key;
    assert forall i :: 0 <= i < |c.prefixes| ==> c.prefixes[i].key == e.key;
  }

  lemma {:induction false} TableBlocksMore(c: Cache, c': Cache, id: nat, ids: seq<nat>)
    requires id !in ids && id in c'.tables && c'.tables == c.tables[id := c'.tables[id]]
    ensures TableBlocks(c', ids) == TableBlocks(c, ids)
    ensures TableBlocks(c', ids + [id]) == TableBlocks(c, ids) + |c'.tables[id]|
  {
    assert (ids + [id])[..|ids|] == ids;
    if ids != [] {
      assert ids == ids[..|ids| - 1] + [ids[|ids| - 1]];
      TableBlocksMore(c, c', id, ids[..|ids| - 1]);
    }
  }

  lemma {:induction false} StillThere(r: Cache, c': Cache, prompt: seq<Token>, e: Entry)
    requires r.Valid() && MissKeeps(r, c', prompt) && e in r.prefixes && OnlyProtected(c'.prefixes, Some(e.key))
    ensures e in c'.prefixes
  {
    if c'.prefixes != r.prefixes {
      assert c'.prefixes[0] in c'.prefixes;
      assert forall i, j :: 0 <= i < j < |r.prefixes| ==> r.prefixes[i].key != r.prefixes[j].key;
    }
  }

  /** The blocks after admission, next to an entry that has survived it. */
  lemma {:induction false} BlocksAfter(m: Model, c: Cache, c': Cache, id: nat, n: nat, ids: seq<nat>, e: Entry,
                                       hist: seq<seq<Token>>)
    requires c.Valid() && ListsResidents(c, ids) && id !in c.tables && Restored(m, c, id, n, c', hist)
    requires e in c'.prefixes
    ensures TableBlocks(c, ids) + BlocksFor(c.size, n) + |e.blocks| <= c.alloc.total
    ensures |c'.prefixes| == 1 ==>
      |c'.alloc.free| + TableBlocks(c, ids) + BlocksFor(c.size, n) + |e.blocks| == c.alloc.total
  {
    hide Cache.Valid, Agrees, BlocksFor, PrefixBlocks, TableBlocks;
    TableBlocksMore(c, c', id, ids);
    NoDupConcat(ids, [id]);
    BlockConservation(c', ids + [id]);
    OneEntry(c'.prefixes, e);
  }

  /** Admission of a prompt reuses the longest cached prefix there is room for. */
  lemma {:induction false} AdmitReuses(m: Model, c: Cache, id: nat, prompt: seq<Token>, ids: seq<nat>,
                                       hist: seq<seq<Token>>)
    requires c.Valid() && Agrees(m, c, hist) && StartsWith(hist, id, prompt) && id !in c.tables && prompt != []
    requires ListsResidents(c, ids) && c.CanReserve(id, 0)
    ensures Reusable(c, ids, prompt, c.Reserve(id, 0).Restore(id, prompt).1)
  {
    hide Cache.Valid, Agrees, Cache.Restore, Restored, Cache.Reserve, NoneLonger, TooBig;
    AdmitFacts(m, c, id, prompt, hist);
    EmptyTableAgrees(m, c, id, hist);
    var r := c.Reserve(id, 0);
    RestoreFacts(m, r, id, prompt, hist);
    var (c', n) := r.Restore(id, prompt);
    SameLonger(c, r, prompt);
    if r.limit == 0 {
      NothingCached(c, prompt);
    } else if n > 0 {
      HitFits(m, c, c', id, n, prompt, ids, hist);
    } else if !NoneLonger(r, prompt, 0, |prompt| - 1) {
      var j := RestoreOrder(r, id, prompt);
      MissTooLong(m, c, r, c', id, prompt, ids, hist);
    }
  }

  lemma {:induction false} SameLonger(c: Cache, r: Cache, prompt: seq<Token>)
    requires r.prefixes == c.prefixes && r.size == c.size
    ensures forall k: nat, top: nat :: NoneLonger(r, prompt, k, top) <==> NoneLonger(c, prompt, k, top)
  {
  }

  lemma {:induction false} NothingCached(c: Cache, prompt: seq<Token>)
    requires c.Valid() && c.limit == 0 && prompt != []
    ensures NoneLonger(c, prompt, 0, |prompt| - 1)
  {
    forall e | e in c.prefixes ensures false {
      assert c.EntryValid(e);
      OneEntry(c.prefixes, e);
    }
  }

  lemma {:induction false} HitFits(m: Model, c: Cache, c': Cache, id: nat, n: nat, prompt: seq<Token>, ids: seq<nat>,
                                   hist: seq<seq<Token>>)
    requires c.Valid() && ListsResidents(c, ids) && id !in c.tables && Restored(m, c, id, n, c', hist)
    requires n <= |prompt| && Cached(c'.prefixes, prompt[..n]) && n % c.size == 0
    ensures TableBlocks(c, ids) + 2 * (n / c.size) <= c.alloc.total
  {
    hide Cache.Valid, Agrees;
    var e :| e in c'.prefixes && e.key == prompt[..n];
    EntryBlocks(c', e);
    BlocksAfter(m, c, c', id, n, ids, e, hist);
    WholeBlocks(c.size, n);
  }

  lemma {:induction false} MissTooLong(m: Model, c: Cache, r: Cache, c': Cache, id: nat, prompt: seq<Token>,
                                       ids: seq<nat>, hist: seq<seq<Token>>)
    requires c.Valid() && ListsResidents(c, ids) && id !in c.tables && prompt != []
    requires Restored(m, c, id, 0, c', hist) && r.prefixes == c.prefixes && r.size == c.size && r.Valid()
    requires TooBig(r, c', prompt, Aligned(c.size, |prompt|))
    requires MissKeeps(r, c', prompt)
    ensures exists k: nat :: TooLong(c, ids, prompt, k)
  {
    hide Cache.Valid, Agrees;
    var top := Aligned(c.size, |prompt|);
    var e :| TooBigEntry(r, c', prompt, top, e);
    EntryBlocks(r, e);
    StillThere(r, c', prompt, e);
    OnlyOneLeft(c', e);
    BlocksAfter(m, c, c', id, 0, ids, e, hist);
    BlocksForExact(c.size, 0);
    NoneBetween(r, prompt, e.length, top);
    assert TooLong(c, ids, prompt, e.length);
  }

  // -- the first one in -----------------------------------------------------------------------------

  lemma {:induction false} NobodyReaped(cfg: Config, s: Sys, ids: seq<nat>, now: int)
    ensures (forall i :: i in ids ==> !Overdue(cfg, s.Get(i), now)) ==> ReapWaiting(cfg, s, ids, now) == s
    ensures (forall i :: i in ids ==> !StalledTooLong(cfg, s.Get(i), now)) ==> ReapActive(cfg, s, ids, now) == s
    decreases |ids|
  {
    hide TimeOut, Finalize;
    if ids != [] {
      assert ids == [ids[0]] + ids[1..];
      NobodyReaped(cfg, s, ids[1..], now);
    }
  }

  /** Nobody is due to be reaped. */
  ghost predicate Quiet(cfg: Config, s: Sys, now: int) {
    && (forall i :: i in s.waiting ==> !Overdue(cfg, s.Get(i), now))
    && (forall i :: i in s.active ==> !StalledTooLong(cfg, s.Get(i), now))
  }

  /** The head of the queue keeps what it was given on admission. */
  lemma {:induction false} FirstIn(m: Model, cfg: Config, d: Sys, now: int)
    requires Core(m, cfg, d, [], Unfed) && d.waiting != [] && |AdmitWaiting(cfg, d, now).active| > |d.active|
    ensures var i := d.waiting[0];
      && i < |d.reqs| && d.cache.CanReserve(i, 0) && i !in d.active
      && AdmitWaiting(cfg, d, now).Get(i).fed == d.cache.Reserve(i, 0).Restore(i, d.reqs[i].prompt).1
  {
    hide Core, AdmitOne, Cache.Reserve, Cache.Restore, Cache.CanReserve, Places, NoDup, AdmitRule;
    assert d.waiting[0] in d.waiting;
    var i, t := d.waiting[0], AdmitOne(cfg, d.(waiting := d.waiting[1..]), d.waiting[0], now);
    PlacesOf(m, cfg, d, [], Unfed);
    ListsApart(cfg, d);
    AdmitOneCore(m, cfg, d, now);
    AdmitOneShape(m, cfg, d, now);
    RemoveFirstShrinks(d.waiting[1..], i);
    FirstRecord(cfg, d, now);
    var k := AdmitRecords(m, cfg, t, now);
    assert i !in t.waiting[..k];
  }

  lemma {:induction false} FirstRecord(cfg: Config, d: Sys, now: int)
    requires d.waiting != [] && d.waiting[0] < |d.reqs| && d.cache.CanReserve(d.waiting[0], 0)
    ensures var i := d.waiting[0]; var t := AdmitOne(cfg, d.(waiting := d.waiting[1..]), i, now);
      i < |t.reqs| && t.reqs[i].fed == d.cache.Reserve(i, 0).Restore(i, d.reqs[i].prompt).1
  {
    hide Cache.Reserve, Cache.Restore, Cache.CanReserve;
  }

  /**
   * The request at the head of the queue, when an iteration with nobody to reap admits it, starts from the longest
   * prefix of its prompt that the cache holds and has room to copy, and from nothing otherwise.
   */
  lemma {:induction false} AdmissionReuses(m: Model, cfg: Config, s: Sys, now: int)
    requires Inv(m, cfg, s) && s.phase.Idle? && s.waiting != [] && Quiet(cfg, s, now)
    requires s.waiting[0] in Step(m, cfg, s, EIterate(now)).active
    ensures var i := s.waiting[0];
      Reusable(s.cache, s.active, s.Get(i).prompt, Step(m, cfg, s, EIterate(now)).Get(i).fed)
  {
    hide Core, Inv, DrainStreams, AdmitWaiting, BuildPlan, Each, Reusable, Reap, Cache.Restore, Places, Quiet, CacheOk;
    var i := s.waiting[0];
    PhaseParts(m, cfg, s);
    InvParts(m, cfg, s);
    NothingReaped(cfg, s, now);
    HeadReuses(m, cfg, s);
    DrainedOnly(m, cfg, s, now);
    var d := DrainStreams(cfg, s, s.active, now);
    var k := AdmitInOrder(m, cfg, d, now);
    HeadIn(cfg, d, AdmitWaiting(cfg, d, now), k);
    FirstIn(m, cfg, d, now);
  }

  lemma {:induction false} NothingReaped(cfg: Config, s: Sys, now: int)
    requires Quiet(cfg, s, now)
    ensures Reap(cfg, s, now) == s
  {
    hide ReapWaiting, ReapActive;
    NobodyReaped(cfg, s, s.waiting, now);
    NobodyReaped(cfg, s, s.active, now);
  }

  lemma {:induction false} DrainedOnly(m: Model, cfg: Config, s: Sys, now: int)
    requires Core(m, cfg, s, [], Unfed) && s.waiting != []
    ensures var d := DrainStreams(cfg, s, s.active, now);
      && Core(m, cfg, d, [], Unfed) && d.cache == s.cache && d.waiting == s.waiting && d.active == s.active
      && d.Get(s.waiting[0]) == s.Get(s.waiting[0]) && s.waiting[0] !in s.active
  {
    hide Core, DrainStreams, Places;
    PlacesOf(m, cfg, s, [], Unfed);
    ListsApart(cfg, s);
    assert s.waiting[0] in s.waiting;
    DrainDoes(cfg, s, s.active, now);
    DrainStreamsCore(m, cfg, s, s.active, now);
  }

  lemma {:induction false} HeadIn(cfg: Config, d: Sys, t: Sys, k: nat)
    requires AdmittedFirst(cfg, d, t, k) && d.waiting != [] && d.waiting[0] in t.active && d.waiting[0] !in d.active
    ensures |t.active| > |d.active|
  {
  }

  lemma {:induction false} HeadReuses(m: Model, cfg: Config, s: Sys)
    requires CacheOk(m, s) && Places(cfg, s) && AllFaithful(m, cfg, s) && s.waiting != []
    ensures var i := s.waiting[0];
      && i < |s.reqs| && s.cache.CanReserve(i, 0)
      && Reusable(s.cache, s.active, s.reqs[i].prompt, s.cache.Reserve(i, 0).Restore(i, s.reqs[i].prompt).1)
  {
    hide Cache.Valid, Agrees, Reusable, Cache.Restore, OneReturned, Greedy;
    var i := s.waiting[0];
    assert i in s.waiting && Faithful(m, cfg, s.reqs[i]);
    EmptyTableAgrees(m, s.cache, i, Hist(s));
    AdmitReuses(m, s.cache, i, s.reqs[i].prompt, s.active, Hist(s));
  }
}
