/** What a forward does to every request and counter, and exactly when it finds the cache full. */
module SchedulerForward {
  import opened Lists
  import opened Allocator
  import opened Transformer
  import opened KvCache
  import opened KvCacheValid
  import opened KvCacheContent
  import opened Packing
  import opened Runner
  import opened Scheduling
  import opened SchedulerCore
  import opened SchedulerRun
  import opened SchedulerCapacity
  import opened SchedulerAftermath

  // -- when the cache is full -----------------------------------------------------------------------

  /** Where the plan leaves request `i`, so far fed up to `fed`. */
  function EndOf(items: seq<BatchItem>, i: nat, fed: nat): nat {
    if items == [] then fed
    else if items[|items| - 1].id == i then items[|items| - 1].End()
    else EndOf(items[..|items| - 1], i, fed)
  }

  /** The blocks the requests of `ids` need once the plan has been fed. */
  function BlocksAhead(s: Sys, items: seq<BatchItem>, ids: seq<nat>): nat {
    if ids == [] then 0 else
    var i := ids[|ids| - 1];
    BlocksAhead(s, items, ids[..|ids| - 1]) + BlocksFor(s.cache.size, EndOf(items, i, s.Get(i).fed))
  }

  lemma {:induction false} AheadNow(s: Sys, ids: seq<nat>)
    requires forall i :: i in ids ==> TableExact(s, i)
    ensures BlocksAhead(s, [], ids) == TableBlocks(s.cache, ids)
  {
    if ids != [] {
      assert ids == ids[..|ids| - 1] + [ids[|ids| - 1]];
      assert ids[|ids| - 1] in ids && TableExact(s, ids[|ids| - 1]);
      AheadNow(s, ids[..|ids| - 1]);
    }
  }

  lemma {:induction false} AheadElsewhere(s: Sys, init: seq<BatchItem>, item: BatchItem, ids: seq<nat>)
    requires item.id !in ids
    ensures BlocksAhead(s, init + [item], ids) == BlocksAhead(s, init, ids)
  {
    if ids != [] {
      assert ids == ids[..|ids| - 1] + [ids[|ids| - 1]];
      AheadElsewhere(s, init, item, ids[..|ids| - 1]);
      assert (init + [item])[..|init|] == init;
    }
  }

  lemma {:induction false} EndUnplanned(items: seq<BatchItem>, i: nat, fed: nat)
    requires i !in ItemIds(items)
    ensures EndOf(items, i, fed) == fed
  {
    if items != [] {
      var n := |items| - 1;
      assert ItemIds(items)[n] == items[n].id;
      assert ItemIds(items) == ItemIds(items[..n]) + [items[n].id];
      EndUnplanned(items[..n], i, fed);
    }
  }

  /** One more item needs its request's missing blocks more. */
  lemma {:induction false} AheadOneMore(s: Sys, init: seq<BatchItem>, item: BatchItem, ids: seq<nat>)
    requires NoDup(ids) && item.id in ids && item.id !in ItemIds(init) && TableExact(s, item.id)
    requires item.start == s.Get(item.id).fed
    ensures BlocksAhead(s, init + [item], ids) ==
            BlocksAhead(s, init, ids) + Missing(s.cache.size, s.cache.tables, (item.id, item.End()))
  {
    var n := |ids| - 1;
    assert ids == ids[..n] + [ids[n]];
    assert (init + [item])[..|init|] == init;
    if ids[n] == item.id {
      AheadElsewhere(s, init, item, ids[..n]);
      EndUnplanned(init, item.id, item.start);
      BlocksForMonotone(s.cache.size, item.start, item.End());
    } else {
      AheadOneMore(s, init, item, ids[..n]);
    }
  }

  lemma {:induction false} AheadIsDemand(s: Sys, items: seq<BatchItem>, ids: seq<nat>)
    requires NoDup(ids) && NoDup(ItemIds(items)) && forall i :: i in ids ==> TableExact(s, i)
    requires forall k :: 0 <= k < |items| ==> items[k].id in ids && items[k].start == s.Get(items[k].id).fed
    ensures BlocksAhead(s, items, ids) ==
            TableBlocks(s.cache, ids) + Sum(Additions(s.cache.size, s.cache.tables, Required(items)))
  {
    var adds := Additions(s.cache.size, s.cache.tables, Required(items));
    if items == [] {
      AheadNow(s, ids);
    } else {
      var n := |items| - 1;
      assert items == items[..n] + [items[n]];
      assert ItemIds(items) == ItemIds(items[..n]) + [items[n].id];
      NoDupConcat(ItemIds(items[..n]), [items[n].id]);
      AheadIsDemand(s, items[..n], ids);
      AheadOneMore(s, items[..n], items[n], ids);
      assert adds[..n] == Additions(s.cache.size, s.cache.tables, Required(items[..n]));
    }
  }

  /**
   * Exactly when a forward reports a full cache, in every reachable state: when the blocks of all residents, at
   * their lengths after it, exceed the pool. Retained prefixes never count.
   */
  lemma {:induction false} FullForwardExactly(m: Model, cfg: Config, s: Sys)
    requires Inv(m, cfg, s) && s.phase.Planned?
    ensures Step(m, cfg, s, EExecute).phase.Landed?
    ensures Step(m, cfg, s, EExecute).phase.outcome.CapacityError? <==>
      BlocksAhead(s, s.phase.items, s.active) > s.cache.alloc.total
  {
    hide Core, Execute, Cache.EnsureCapacity, BlocksAhead, Cache.Valid, NoDup, TableBlocks;
    var items := s.phase.items;
    PlanParts(m, cfg, s, items);
    AheadIsDemand(s, items, s.active);
    assert Ids(Required(items)) == ItemIds(items);
    CapacityIsFull(m, cfg.graph, cfg.maxModelLen, s.cache, items);
    FullExactly(s.cache, Required(items), s.active);
  }

  lemma {:induction false} PlanParts(m: Model, cfg: Config, s: Sys, items: seq<BatchItem>)
    requires Core(m, cfg, s, items, Unfed)
    ensures NoDup(ItemIds(items)) && NoDup(s.active) && (forall i :: i in s.active ==> TableExact(s, i))
    ensures forall k :: 0 <= k < |items| ==> items[k].id in s.active && items[k].start == s.Get(items[k].id).fed
    ensures s.cache.Valid() && ListsResidents(s.cache, s.active) && AllTables(s.cache, Required(items))
  {
    hide Cache.Valid, Agrees, AllFaithful, ItemMatches, OneReturned;
    forall k | 0 <= k < |items| ensures items[k].id in s.active && items[k].start == s.Get(items[k].id).fed {
      assert ItemInFlight(m, cfg, s, items[k], Unfed);
    }
    forall i | i in s.active ensures TableExact(s, i) {
      assert Settled(s, i);
    }
  }

  // -- what it changes --------------------------------------------------------------------------------

  /** What a forward changes: the planned requests are all fed, or nobody is. */
  ghost predicate Forwarded(s: Sys, t: Sys, items: seq<BatchItem>, fed: bool) {
    && t == s.(reqs := t.reqs, cache := t.cache, phase := t.phase, metrics := t.metrics)
    && t.phase.Landed? && t.phase.items == items && |t.reqs| == |s.reqs|
    && t.metrics == s.metrics.(plans := s.metrics.plans + 1, tokens := s.metrics.tokens + if fed then TokenCount(items)
      else 0)
    && (!fed ==> t.reqs == s.reqs)
    && (fed ==> FedRecords(s, s.(reqs := t.reqs), items))
  }

  ghost predicate ForwardEffect(s: Sys, t: Sys, items: seq<BatchItem>) {
    t.phase.Landed? && Forwarded(s, t, items, t.phase.outcome.Ran?)
  }

  /** Raised before the commit. */
  ghost predicate FailedEffect(s: Sys, t: Sys, items: seq<BatchItem>) {
    Forwarded(s, t, items, false) && !t.phase.outcome.Ran?
  }

  /** Raised after the commit, where the forward would have led to `t`. */
  ghost predicate LateEffect(s: Sys, t: Sys, u: Sys, items: seq<BatchItem>) {
    && t.phase.Landed? && Forwarded(s, u, items, t.phase.outcome.Ran?)
    && u.phase.outcome == if t.phase.outcome.Ran? then Crashed else t.phase.outcome
  }

  /**
   * A forward feeds every planned request exactly its tokens when it completes, and nobody anything when it runs
   * out of room or raises before its commit; raising later it has fed them all the same. It counts once.
   */
  lemma {:induction false} ForwardedExactly(m: Model, cfg: Config, s: Sys, pool: seq<Layer>)
    requires Inv(m, cfg, s) && s.phase.Planned?
    ensures ForwardEffect(s, Step(m, cfg, s, EExecute), s.phase.items)
    ensures FailedEffect(s, Step(m, cfg, s, EExecuteFails(pool)), s.phase.items)
    ensures LateEffect(s, Step(m, cfg, s, EExecute), Step(m, cfg, s, EExecuteFailsLate), s.phase.items)
  {
    hide Core, Execute, ExecuteFailing, TokenCount, FedAll, FedRecords;
    var items := s.phase.items;
    PlannedResidents(m, cfg, s, items, Unfed);
    FedAllFacts(s, items);
    assert FedAll(s, items) == s.(reqs := FedAll(s, items).reqs) by {
      FedOnly(s, items);
    }
    FailingNeverRan(cfg, s, items, pool);
  }

  lemma {:induction false} FedOnly(s: Sys, items: seq<BatchItem>)
    requires FedRecords(s, FedAll(s, items), items)
    ensures FedAll(s, items) == s.(reqs := FedAll(s, items).reqs) && |FedAll(s, items).reqs| == |s.reqs|
  {
    hide FedAll;
  }

  lemma {:induction false} FailingNeverRan(cfg: Config, s: Sys, items: seq<BatchItem>, pool: seq<Layer>)
    ensures !ExecuteFailing(cfg.graph, cfg.maxModelLen, s.cache, items, pool).0.Ran?
  {
    hide Cache.EnsureCapacity, Packed;
  }
}
