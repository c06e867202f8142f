/**
 * What the post-processing of a forward does to every request and list, as statements about `Step`: who gets which
 * token, who ends and how, who is preempted, and that nobody else changes.
 */
module SchedulerAftermath {
  import opened Lists
  import opened Transformer
  import opened KvCache
  import opened KvCacheContent
  import opened Packing
  import opened Runner
  import opened Scheduling
  import opened SchedulerCore
  import opened SchedulerRecords
  import opened SchedulerQueue
  import opened SchedulerPlan
  import opened SchedulerOrder
  import opened SchedulerRun
  import opened SchedulerRestores

  // -- a completed forward ------------------------------------------------------------------------

  /** How much of the item is being computed again after a preemption. */
  function Again(r: Req, item: BatchItem): nat {
    var end := item.start + |item.tokens|;
    var until := if end <= r.recomputeUntil then end else r.recomputeUntil;
    if until > item.start then until - item.start else 0
  }

  predicate FinalToken(r: Req, token: Token) {
    r.eos == Some(token) || |r.generated| + 1 >= r.maxOut
  }

  /**
   * The token is appended and its event published, without the token if it ended the sequence; the request goes
   * on decoding, or has completed, the terminator behind the event.
   */
  ghost predicate TokenAdded(cfg: Config, r: Req, again: nat, token: Token, w: Req, r': Req, now: int) {
    var last, capacity := FinalToken(r, token), cfg.streamCapacity;
    && Flushed(r, [StreamEvent(if r.eos == Some(token) then None else Some(token), false)], w, capacity, now)
    && (if last then Flushed(w, [StreamEvent(None, true)], r', capacity, now)
        else r'.queue == w.queue && r'.pending == w.pending && r'.stalled == w.stalled)
    && r' == r.(generated := r.generated + [token], state := if last then Completed else Decoding,
                recomputed := r.recomputed + again, finalized := r.finalized + (if last then 1 else 0),
                resolved := if last && r.resolved == 0 then 1 else r.resolved,
                queue := r'.queue, pending := r'.pending, stalled := r'.stalled)
  }

  /** What post-processing a completed item does to its request's record. */
  ghost predicate ItemDone(cfg: Config, item: BatchItem, outputs: map<nat, Token>, r: Req, r': Req, now: int) {
    if r.Terminal() then EndsAs(cfg, r, r', r.state, r.rejected, now)
    else if !item.sample then r' == r.(state := Prefill, recomputed := r.recomputed + Again(r, item))
    else item.id in outputs && exists w :: TokenAdded(cfg, r, Again(r, item), outputs[item.id], w, r', now)
  }

  ghost function DoneRule(cfg: Config, all: seq<BatchItem>, outputs: map<nat, Token>, now: int):
    (nat, Req, Req) -> bool
  {
    (i: nat, r: Req, r': Req) => exists item :: item in all && item.id == i && ItemDone(cfg, item, outputs, r, r', now)
  }

  /** The request of the item has ended: cancelled in flight, or by its last token. */
  predicate Finishes(r: Req, item: BatchItem, outputs: map<nat, Token>) {
    r.Terminal() || (item.sample && item.id in outputs && FinalToken(r, outputs[item.id]))
  }

  function Finishers(s: Sys, items: seq<BatchItem>, outputs: map<nat, Token>): seq<nat> {
    if items == [] then [] else
    (if Finishes(s.Get(items[0].id), items[0], outputs) then [items[0].id] else []) +
      Finishers(s, items[1..], outputs)
  }

  lemma {:induction false} FinishersSame(s: Sys, t: Sys, items: seq<BatchItem>, outputs: map<nat, Token>)
    requires forall i :: i in ItemIds(items) ==> t.Get(i) == s.Get(i)
    ensures Finishers(t, items, outputs) == Finishers(s, items, outputs)
  {
    if items != [] {
      assert ItemIds(items) == [items[0].id] + ItemIds(items[1..]);
      FinishersSame(s, t, items[1..], outputs);
    }
  }

  lemma {:induction false} FlushedAlike(r: Req, w: Req, q: Req, v: Req, more: seq<StreamEvent>, capacity: int, now: int)
    requires Flushed(r, more, w, capacity, now)
    requires q.queue == r.queue && q.pending == r.pending && q.stalled == r.stalled
    requires v.queue == w.queue && v.pending == w.pending && v.stalled == w.stalled
    ensures Flushed(q, more, v, capacity, now)
  {
    var k: nat :| FlushedUpTo(r, more, w, capacity, now, k);
    assert FlushedUpTo(q, more, v, capacity, now, k);
  }

  lemma {:induction false} TokenRecord(cfg: Config, r: Req, token: Token, now: int)
    ensures var w := WithToken(r, token, cfg.streamCapacity, now);
      && Flushed(r, [StreamEvent(if r.eos == Some(token) then None else Some(token), false)], w, cfg.streamCapacity,
           now)
      && w == r.(generated := r.generated + [token], state := if FinalToken(r, token) then Completed else Decoding,
                 queue := w.queue, pending := w.pending, stalled := w.stalled)
  {
    hide Flushed, Drained;
    var g := r.(generated := r.generated + [token]);
    var e := StreamEvent(if r.eos == Some(token) then None else Some(token), false);
    PublishedFlushes(g, e, cfg.streamCapacity, now);
    FlushedAlike(g, Published(g, e, cfg.streamCapacity, now), r, WithToken(r, token, cfg.streamCapacity, now), [e],
                 cfg.streamCapacity, now);
  }

  lemma {:induction false} RecomputedAgain(r: Req, item: BatchItem)
    ensures Recomputed(r, item) == r.(recomputed := r.recomputed + Again(r, item))
  {
  }

  /** The token's turn, from the record as it was before the recompute count. */
  lemma {:induction false} TokenDoes(cfg: Config, s: Sys, item: BatchItem, token: Token, now: int)
    requires item.id < |s.reqs| && NoDup(s.waiting) && NoDup(s.active)
    ensures var i, r := item.id, s.reqs[item.id];
      var t := AfterToken(cfg, s.Set(i, Recomputed(r, item)), i, token, now);
      && |t.reqs| == |s.reqs| && (forall j :: 0 <= j < |s.reqs| && j != i ==> t.reqs[j] == s.reqs[j])
      && (exists w :: TokenAdded(cfg, r, Again(r, item), token, w, t.reqs[i], now))
      && (if FinalToken(r, token) then Left(s, t, [i])
          else t.waiting == s.waiting && t.active == s.active && t.phase == s.phase)
  {
    hide Flushed, Finalize, Without, WithToken, Again, NoDup;
    var i, r := item.id, s.reqs[item.id];
    RecomputedAgain(r, item);
    var q := Recomputed(r, item);
    TokenRecord(cfg, q, token, now);
    var w, a := WithToken(q, token, cfg.streamCapacity, now), s.Set(i, WithToken(q, token, cfg.streamCapacity, now));
    var e := StreamEvent(if r.eos == Some(token) then None else Some(token), false);
    FlushedAlike(q, w, r, w, [e], cfg.streamCapacity, now);
    assert s.Set(i, q).Set(i, w) == a;
    if FinalToken(r, token) {
      FinalizeLeaves(cfg, a, i, Completed, w.rejected, now);
      assert a.Set(i, w) == a;
    }
    assert TokenAdded(cfg, r, Again(r, item), token, w, AfterToken(cfg, s.Set(i, q), i, token, now).reqs[i], now);
  }

  /** One item's turn. */
  lemma {:induction false} ItemDoes(cfg: Config, s: Sys, item: BatchItem, outputs: map<nat, Token>, now: int)
    requires item.id < |s.reqs| && NoDup(s.waiting) && NoDup(s.active)
    requires item.sample && !s.reqs[item.id].Terminal() ==> item.id in outputs
    ensures var i, t := item.id, PostItem(cfg, s, item, outputs, now);
      && |t.reqs| == |s.reqs| && (forall j :: 0 <= j < |s.reqs| && j != i ==> t.reqs[j] == s.reqs[j])
      && ItemDone(cfg, item, outputs, s.reqs[i], t.reqs[i], now)
      && Left(s, t, if Finishes(s.reqs[i], item, outputs) then [i] else [])
  {
    hide Finalize, Without, AfterToken, TokenAdded, Again, FinalToken, EndsAs, NoDup, Recomputed;
    var i, r := item.id, s.reqs[item.id];
    LeftNone(s, s);
    if r.Terminal() {
      FinalizeLeaves(cfg, s, i, r.state, r.rejected, now);
      SetSelf(s, i);
      assert r.(state := r.state, rejected := r.rejected) == r;
    } else {
      RecomputedAgain(r, item);
      if item.sample {
        TokenDoes(cfg, s, item, outputs[i], now);
        assert s.Set(i, Recomputed(r, item)).Get(i) == Recomputed(r, item);
      }
    }
  }

  lemma {:induction false} ItemHead(m: Model, cfg: Config, s: Sys, items: seq<BatchItem>, outputs: map<nat, Token>)
    requires Core(m, cfg, s, items, Fed(outputs)) && items != []
    ensures items[0].id < |s.reqs| && NoDup(s.waiting) && NoDup(s.active) && NoDup(ItemIds(items))
    ensures items[0].sample ==> items[0].id in outputs
  {
    assert ItemInFlight(m, cfg, s, items[0], Fed(outputs));
  }

  lemma {:induction false} DoneHead(cfg: Config, s: Sys, t: Sys, item: BatchItem, all: seq<BatchItem>,
                                    outputs: map<nat, Token>, now: int)
    requires item in all && item.id < |s.reqs| == |t.reqs|
    requires forall j :: 0 <= j < |s.reqs| && j != item.id ==> t.reqs[j] == s.reqs[j]
    requires ItemDone(cfg, item, outputs, s.reqs[item.id], t.reqs[item.id], now)
    ensures Each(s, t, [item.id], DoneRule(cfg, all, outputs, now))
  {
    hide ItemDone;
  }

  /** The items of a completed forward, in order: each request's turn, and who has ended. */
  lemma {:induction false} PostRanDoes(m: Model, cfg: Config, s: Sys, items: seq<BatchItem>, all: seq<BatchItem>,
                                       outputs: map<nat, Token>, now: int)
    requires Core(m, cfg, s, items, Fed(outputs)) && forall item :: item in items ==> item in all
    ensures var t := PostRan(cfg, s, items, outputs, now);
      Each(s, t, ItemIds(items), DoneRule(cfg, all, outputs, now)) && Left(s, t, Finishers(s, items, outputs))
    decreases |items|
  {
    hide Core, PostItem, Each, Left, DoneRule, NoDup, Finishes, ItemDone;
    if items == [] {
      EachNone(s, s, DoneRule(cfg, all, outputs, now));
      LeftNone(s, s);
      assert ItemIds(items) == [];
    } else {
      var t := PostItem(cfg, s, items[0], outputs, now);
      assert items[0] in items && items == [items[0]] + items[1..];
      ItemHead(m, cfg, s, items, outputs);
      ItemDoes(cfg, s, items[0], outputs, now);
      DoneHead(cfg, s, t, items[0], all, outputs, now);
      PostItemCore(m, cfg, s, items, outputs, now);
      PostRanDoes(m, cfg, t, items[1..], all, outputs, now);
      DoneNext(cfg, s, t, PostRan(cfg, s, items, outputs, now), items, all, outputs, now);
    }
  }

  lemma {:induction false} DoneNext(cfg: Config, s: Sys, t: Sys, u: Sys, items: seq<BatchItem>, all: seq<BatchItem>,
                                    outputs: map<nat, Token>, now: int)
    requires items != [] && NoDup(ItemIds(items)) && items[0].id < |s.reqs|
    requires Each(s, t, [items[0].id], DoneRule(cfg, all, outputs, now))
    requires Left(s, t, if Finishes(s.Get(items[0].id), items[0], outputs) then [items[0].id] else [])
    requires Each(t, u, ItemIds(items[1..]), DoneRule(cfg, all, outputs, now))
    requires Left(t, u, Finishers(t, items[1..], outputs))
    ensures Each(s, u, ItemIds(items), DoneRule(cfg, all, outputs, now)) && Left(s, u, Finishers(s, items, outputs))
  {
    hide Left, DoneRule, Finishes, NoDup;
    var ids := ItemIds(items);
    assert ids[1..] == ItemIds(items[1..]);
    OthersLater(ids);
    EachFirst(s, t, u, ids, DoneRule(cfg, all, outputs, now));
    EachSame(s, t, [ids[0]], DoneRule(cfg, all, outputs, now), ids[1..]);
    hide Each;
    FinishersSame(s, t, items[1..], outputs);
    LeftThen(s, t, u, if Finishes(s.Get(items[0].id), items[0], outputs) then [items[0].id] else [],
             Finishers(t, items[1..], outputs));
  }

  // -- the step -------------------------------------------------------------------------------------

  /** What post-processing a completed forward changes. */
  ghost predicate Served(cfg: Config, s: Sys, t: Sys, items: seq<BatchItem>, outputs: map<nat, Token>, now: int) {
    && t.phase.Idle? && |t.reqs| == |s.reqs|
    && (forall k :: 0 <= k < |items| ==>
          && items[k].id < |s.reqs|
          && ItemDone(cfg, items[k], outputs, s.reqs[items[k].id], t.reqs[items[k].id], now))
    && (forall i :: 0 <= i < |s.reqs| && i !in ItemIds(items) ==> t.reqs[i] == s.reqs[i])
    && t.waiting == s.waiting && t.active == Without(s.active, Finishers(s, items, outputs))
  }

  /** Distinct requests: the item found is the item meant. */
  lemma {:induction false} ItemsMeant(cfg: Config, s: Sys, t: Sys, items: seq<BatchItem>, outputs: map<nat, Token>,
                                      now: int, k: nat)
    requires NoDup(ItemIds(items)) && k < |items| && items[k].id < |s.reqs|
    requires Each(s, t, ItemIds(items), DoneRule(cfg, items, outputs, now))
    ensures ItemDone(cfg, items[k], outputs, s.reqs[items[k].id], t.reqs[items[k].id], now)
  {
    hide ItemDone;
    var ids, i := ItemIds(items), items[k].id;
    assert ids[k] == i && i in ids;
    assert DoneRule(cfg, items, outputs, now)(i, s.reqs[i], t.reqs[i]);
    var item :| item in items && item.id == i && ItemDone(cfg, item, outputs, s.reqs[i], t.reqs[i], now);
    var n :| 0 <= n < |items| && items[n] == item;
    assert ids[n] == ids[k];
  }

  /** The planned requests are residents, each planned once. */
  lemma {:induction false} PlannedResidents(m: Model, cfg: Config, s: Sys, items: seq<BatchItem>, mode: Mode)
    requires Core(m, cfg, s, items, mode)
    ensures NoDup(ItemIds(items)) && forall k :: 0 <= k < |items| ==> items[k].id in s.active && items[k].id < |s.reqs|
    ensures NoDup(s.waiting) && NoDup(s.active) && forall i :: !(i in s.waiting && i in s.active)
  {
    forall k | 0 <= k < |items| ensures items[k].id in s.active && items[k].id < |s.reqs| {
      assert ItemInFlight(m, cfg, s, items[k], mode);
    }
  }

  lemma {:induction false} FinishersPlanned(s: Sys, items: seq<BatchItem>, outputs: map<nat, Token>)
    ensures forall i :: i in Finishers(s, items, outputs) ==> i in ItemIds(items)
  {
    if items != [] {
      assert ItemIds(items) == [items[0].id] + ItemIds(items[1..]);
      FinishersPlanned(s, items[1..], outputs);
    }
  }

  /** Only residents leave: the queue is as it was. */
  lemma {:induction false} QueueStays(s: Sys, t: Sys, gone: seq<nat>, items: seq<BatchItem>)
    requires Left(s, t, gone) && forall i :: i in gone ==> i in ItemIds(items)
    requires forall k :: 0 <= k < |items| ==> items[k].id in s.active
    requires forall i :: !(i in s.waiting && i in s.active)
    ensures t.waiting == s.waiting && t.active == Without(s.active, gone) && t.phase == s.phase
  {
    forall i | i in s.waiting ensures i !in gone {
      if i in ItemIds(items) {
        var k :| 0 <= k < |items| && items[k].id == i;
      }
    }
    WithoutDisjoint(s.waiting, gone);
  }

  /**
   * Post-processing of a completed forward, in every reachable state: each planned request is ended if it was
   * cancelled meanwhile, else gets its sampled token or goes on with its prefill; nobody else changes.
   */
  lemma {:induction false} ServedExactly(m: Model, cfg: Config, s: Sys, now: int)
    requires Inv(m, cfg, s) && s.phase.Landed? && s.phase.outcome.Ran?
    ensures Served(cfg, s, Step(m, cfg, s, EPost(now)), s.phase.items, s.phase.outcome.outputs, now)
  {
    hide Core, PostRan, Each, ItemDone, Finishers, DoneRule, NoDup;
    var items, outputs := s.phase.items, s.phase.outcome.outputs;
    var idle, t := s.(phase := Idle), Step(m, cfg, s, EPost(now));
    PhaseCore(m, cfg, s, items, Fed(outputs), Idle, s.metrics);
    PostRanDoes(m, cfg, idle, items, items, outputs, now);
    PlannedResidents(m, cfg, idle, items, Fed(outputs));
    FinishersPlanned(idle, items, outputs);
    FinishersSame(s, idle, items, outputs);
    QueueStays(idle, t, Finishers(idle, items, outputs), items);
    ServedRecords(cfg, s, idle, t, items, outputs, now);
  }

  lemma {:induction false} ServedRecords(cfg: Config, s: Sys, idle: Sys, t: Sys, items: seq<BatchItem>,
                                         outputs: map<nat, Token>, now: int)
    requires Each(idle, t, ItemIds(items), DoneRule(cfg, items, outputs, now)) && idle.reqs == s.reqs
    requires NoDup(ItemIds(items)) && forall k :: 0 <= k < |items| ==> items[k].id < |s.reqs|
    ensures |t.reqs| == |s.reqs|
    ensures forall i :: 0 <= i < |s.reqs| && i !in ItemIds(items) ==> t.reqs[i] == s.reqs[i]
    ensures forall k :: 0 <= k < |items| ==>
      ItemDone(cfg, items[k], outputs, s.reqs[items[k].id], t.reqs[items[k].id], now)
  {
    hide ItemDone, DoneRule, NoDup;
    forall k | 0 <= k < |items|
      ensures ItemDone(cfg, items[k], outputs, s.reqs[items[k].id], t.reqs[items[k].id], now) {
      ItemsMeant(cfg, idle, t, items, outputs, now, k);
    }
  }

  // -- a failed forward --------------------------------------------------------------------------------

  /** A planned request of a crashed forward ends: as it was cancelled, or failed. */
  ghost function CrashRule(cfg: Config, now: int): (nat, Req, Req) -> bool {
    (i: nat, r: Req, r': Req) =>
      if r.Terminal() then EndsAs(cfg, r, r', r.state, r.rejected, now) else EndsAs(cfg, r, r', Failed, false, now)
  }

  lemma {:induction false} CrashTurn(cfg: Config, s: Sys, i: nat, now: int)
    requires i < |s.reqs| && NoDup(s.waiting) && NoDup(s.active)
    ensures var t := if s.Get(i).Terminal() then Finalize(cfg, s, i, now) else Fail(cfg, s, i, false, now);
      Each(s, t, [i], CrashRule(cfg, now)) && Left(s, t, [i])
  {
    hide Finalize, EndsAs, Without, NoDup;
    var r := s.reqs[i];
    if r.Terminal() {
      FinalizeLeaves(cfg, s, i, r.state, r.rejected, now);
      SetSelf(s, i);
      assert r.(state := r.state, rejected := r.rejected) == r;
    } else {
      FinalizeLeaves(cfg, s, i, Failed, false, now);
    }
  }

  /** A crash ends every planned request. */
  lemma {:induction false} PostCrashedDoes(m: Model, cfg: Config, s: Sys, items: seq<BatchItem>, now: int)
    requires Core(m, cfg, s, items, Broken)
    ensures var t := PostCrashed(cfg, s, items, now);
      Each(s, t, ItemIds(items), CrashRule(cfg, now)) && Left(s, t, ItemIds(items))
    decreases |items|
  {
    hide Core, Each, Left, CrashRule, NoDup, Finalize, Fail;
    if items == [] {
      EachNone(s, s, CrashRule(cfg, now));
      LeftNone(s, s);
      assert ItemIds(items) == [];
    } else {
      var i, ids := items[0].id, ItemIds(items);
      PlannedResidents(m, cfg, s, items, Broken);
      var t := if s.Get(i).Terminal() then Finalize(cfg, s, i, now) else Fail(cfg, s, i, false, now);
      CrashTurn(cfg, s, i, now);
      CrashHeadCore(m, cfg, s, items, now);
      PostCrashedDoes(m, cfg, t, items[1..], now);
      assert ids[0] == i && ids[1..] == ItemIds(items[1..]) && ids == [i] + ids[1..];
      EachFirst(s, t, PostCrashed(cfg, s, items, now), ids, CrashRule(cfg, now));
      LeftThen(s, t, PostCrashed(cfg, s, items, now), [i], ids[1..]);
    }
  }

  lemma {:induction false} CrashHeadCore(m: Model, cfg: Config, s: Sys, items: seq<BatchItem>, now: int)
    requires Core(m, cfg, s, items, Broken) && items != []
    ensures var i := items[0].id;
      var t := if s.Get(i).Terminal() then Finalize(cfg, s, i, now) else Fail(cfg, s, i, false, now);
      Core(m, cfg, t, items[1..], Broken)
  {
    hide CacheOk, AllFaithful, Residents, Finalize;
    var i := items[0].id;
    assert ItemInFlight(m, cfg, s, items[0], Broken);
    TailFlight(m, cfg, s, items, Broken);
    if s.Get(i).Terminal() {
      SetSelf(s, i);
      EndCore(m, cfg, s, i, s.Get(i), items, items[1..], Broken, now);
    } else {
      FailCore(m, cfg, s, i, false, now, items, items[1..], Broken);
    }
  }

  /** Post-processing of a crashed forward: exactly the planned requests end, each once. */
  lemma {:induction false} CrashedExactly(m: Model, cfg: Config, s: Sys, now: int)
    requires Inv(m, cfg, s) && s.phase.Landed? && s.phase.outcome.Crashed?
    ensures var t, ids := Step(m, cfg, s, EPost(now)), ItemIds(s.phase.items);
      && t.phase.Idle? && t.waiting == s.waiting && t.active == Without(s.active, ids) && |t.reqs| == |s.reqs|
      && (forall i :: 0 <= i < |s.reqs| ==>
            if i !in ids then t.reqs[i] == s.reqs[i]
            else if s.reqs[i].Terminal() then EndsAs(cfg, s.reqs[i], t.reqs[i], s.reqs[i].state, s.reqs[i].rejected,
              now)
            else EndsAs(cfg, s.reqs[i], t.reqs[i], Failed, false, now))
  {
    hide Core, PostCrashed, EndsAs, NoDup;
    var items, idle := s.phase.items, s.(phase := Idle);
    PhaseCore(m, cfg, s, items, Broken, Idle, s.metrics);
    PostCrashedDoes(m, cfg, idle, items, now);
    PlannedResidents(m, cfg, idle, items, Broken);
    QueueStays(idle, Step(m, cfg, s, EPost(now)), ItemIds(items), items);
  }

  // -- a forward that found the cache full ---------------------------------------------------------------

  /** Two unfinished residents. */
  ghost predicate TwoUnfinished(s: Sys) {
    exists i, j :: i in s.active && j in s.active && i != j && !s.Get(i).Terminal() && !s.Get(j).Terminal()
  }

  lemma {:induction false} LivingNoDup(s: Sys, ids: seq<nat>)
    requires NoDup(ids)
    ensures NoDup(Living(s, ids))
  {
    if ids != [] {
      var n := |ids| - 1;
      assert ids == ids[..n] + [ids[n]];
      LivingNoDup(s, ids[..n]);
      LivingFacts(s, ids[..n]);
      NoDupConcat(Living(s, ids[..n]), [ids[n]]);
    }
  }

  lemma {:induction false} PreemptsWithTwo(s: Sys)
    requires NoDup(s.active)
    ensures CanPreempt(s) <==> TwoUnfinished(s)
  {
    hide Living;
    var ids := Living(s, s.active);
    LivingFacts(s, s.active);
    LivingNoDup(s, s.active);
    if |ids| > 1 {
      assert ids[0] in ids && ids[1] in ids && ids[0] != ids[1];
    }
    if TwoUnfinished(s) {
      var i, j :| i in s.active && j in s.active && i != j && !s.Get(i).Terminal() && !s.Get(j).Terminal();
      assert i in ids && j in ids;
    }
  }

  /** Nobody unfinished holds more slots than `v`, nor as many with more tokens fed, nor that having come later. */
  ghost predicate LargestOf(s: Sys, v: nat) {
    forall i :: i in s.active && !s.Get(i).Terminal() ==> NoLarger(Seen(s, i), Seen(s, v))
  }

  predicate NoLarger(a: VictimCandidate, b: VictimCandidate) {
    || a.allocatedTokens < b.allocatedTokens
    || (a.allocatedTokens == b.allocatedTokens && (a.fed < b.fed || (a.fed == b.fed && a.arrival <= b.arrival)))
  }

  /**
   * With two unfinished residents a full cache costs one of them its place, and nobody anything else: it goes to
   * the end of the queue to be computed again, keeping its words and its stream. It is the first of those ranked
   * highest; under the production policy the one holding most, then the furthest on, then the last to arrive.
   */
  lemma {:induction false} PreemptedExactly(m: Model, cfg: Config, s: Sys, now: int) returns (v: nat)
    requires Inv(m, cfg, s) && s.phase.Landed? && s.phase.outcome.CapacityError? && TwoUnfinished(s)
    ensures v in s.active && v < |s.reqs| && !s.reqs[v].Terminal()
    ensures var t, r := Step(m, cfg, s, EPost(now)), s.reqs[v];
      && t == s.(phase := Idle, active := Without(s.active, [v]), waiting := s.waiting + [v], cache := t.cache,
                 metrics := s.metrics.(preempted := s.metrics.preempted + 1),
                 reqs := s.reqs[v := r.(state := Waiting, fed := 0, preemptions := r.preemptions + 1,
                                        recomputeUntil := r.fed)])
      && t.cache.tables == s.cache.tables - {v} && t.cache.lengths == s.cache.lengths - {v}
      && Leaves(s.cache, t.cache, r, s.active)
    ensures FirstHighest(cfg, s, v) && (cfg.victimPriority == LargestSequence ==> LargestOf(s, v))
  {
    hide Core, Living, Victim, TupleLess, VictimRank, NoDup, Leaves, LargestOf, FirstHighest, TwoUnfinished, Without,
      RemoveFirst;
    hide Teardown;
    var items, idle := s.phase.items, s.(phase := Idle);
    PhaseCore(m, cfg, s, items, Unfed, Idle, s.metrics);
    PlannedResidents(m, cfg, idle, items, Unfed);
    SameUnfinished(s, idle);
    PreemptsWithTwo(idle);
    LivingFacts(idle, idle.active);
    DropUnfed(m, cfg, idle, items, Unfed);
    v := Victim(cfg, idle, Living(idle, idle.active));
    RemoveFirstIsWithout(s.active, v);
    EvictedCache(m, cfg, idle, v);
    HighestOf(cfg, idle);
    SameRanks(cfg, s, idle);
  }

  lemma {:induction false} EvictedCache(m: Model, cfg: Config, s: Sys, v: nat)
    requires Core(m, cfg, s, [], Unfed) && v in s.active && !s.Get(v).Terminal() && s.phase.Idle?
    ensures var c := Evicted(s, v).cache;
      && c.tables == s.cache.tables - {v} && c.lengths == s.cache.lengths - {v}
      && v < |s.reqs| && Leaves(s.cache, c, s.reqs[v], s.active)
  {
    hide Cache.Valid, Agrees, Cache.Store, Cache.Release, Leaves, NoDup, OneReturned, AllFaithful, Residents;
    CommittedIsFed(m, cfg, s, v);
    TeardownFacts(m, s.cache, v, s.reqs[v].prompt, Hist(s));
    TeardownLeaves(s.cache, v, s.reqs[v], s.active);
  }

  lemma {:induction false} HighestOf(cfg: Config, s: Sys)
    requires CanPreempt(s)
    ensures var v := Victim(cfg, s, Living(s, s.active));
      && FirstHighest(cfg, s, v)
      && (cfg.victimPriority == LargestSequence ==> LargestOf(s, v))
  {
    hide Victim, Living, TupleLess, FirstHighest;
    VictimFirst(cfg, s);
    LivingFacts(s, s.active);
    if cfg.victimPriority == LargestSequence {
      var v := Victim(cfg, s, Living(s, s.active));
      forall i | i in s.active && !s.Get(i).Terminal() ensures NoLarger(Seen(s, i), Seen(s, v)) {
        var n, w := VictimTies(cfg, s, i);
      }
    }
  }

  lemma {:induction false} SameRanks(cfg: Config, s: Sys, t: Sys)
    requires t == s.(phase := t.phase)
    ensures forall v :: LargestOf(t, v) <==> LargestOf(s, v)
    ensures forall v :: FirstHighest(cfg, t, v) ==> FirstHighest(cfg, s, v)
  {
    assert forall i :: Seen(t, i) == Seen(s, i);
  }

  /** A planned request that alone exceeds the cache fails as rejected; one cancelled meanwhile is left as it is. */
  ghost function RefuseRule(cfg: Config, now: int): (nat, Req, Req) -> bool {
    (i: nat, r: Req, r': Req) => if r.Terminal() then r' == r else EndsAs(cfg, r, r', Failed, true, now)
  }

  /** The unfinished ones of `ids`, in their order. */
  function Unfinished(s: Sys, ids: seq<nat>): seq<nat> {
    if ids == [] then [] else (if s.Get(ids[0]).Terminal() then [] else [ids[0]]) + Unfinished(s, ids[1..])
  }

  lemma {:induction false} UnfinishedSame(s: Sys, t: Sys, ids: seq<nat>)
    requires forall i :: i in ids ==> t.Get(i) == s.Get(i)
    ensures Unfinished(t, ids) == Unfinished(s, ids)
  {
    if ids != [] {
      assert ids == [ids[0]] + ids[1..];
      UnfinishedSame(s, t, ids[1..]);
    }
  }

  lemma {:induction false} UnfinishedAre(s: Sys, ids: seq<nat>)
    ensures forall i :: i in Unfinished(s, ids) <==> i in ids && !s.Get(i).Terminal()
  {
    if ids != [] {
      assert ids == [ids[0]] + ids[1..];
      UnfinishedAre(s, ids[1..]);
    }
  }

  lemma {:induction false} RefuseTurn(cfg: Config, s: Sys, i: nat, now: int)
    requires i < |s.reqs| && NoDup(s.waiting) && NoDup(s.active)
    ensures var t := Fail(cfg, s, i, true, now);
      && Each(s, t, [i], RefuseRule(cfg, now)) && Left(s, t, if s.Get(i).Terminal() then [] else [i])
      && NoDup(t.waiting) && NoDup(t.active)
  {
    hide Finalize, EndsAs, Without, NoDup;
    if s.reqs[i].Terminal() {
      LeftNone(s, s);
    } else {
      FinalizeLeaves(cfg, s, i, Failed, true, now);
      WithoutFacts(s.waiting, [i]);
      WithoutFacts(s.active, [i]);
    }
  }

  lemma {:induction false} PostRejectedDoes(cfg: Config, s: Sys, items: seq<BatchItem>, now: int)
    requires NoDup(ItemIds(items)) && NoDup(s.waiting) && NoDup(s.active)
    requires forall k :: 0 <= k < |items| ==> items[k].id < |s.reqs|
    ensures var t := PostRejected(cfg, s, items, now);
      Each(s, t, ItemIds(items), RefuseRule(cfg, now)) && Left(s, t, Unfinished(s, ItemIds(items)))
    decreases |items|
  {
    hide Left, RefuseRule, NoDup, Fail;
    var ids := ItemIds(items);
    if items == [] {
      EachNone(s, s, RefuseRule(cfg, now));
      LeftNone(s, s);
    } else {
      var i, t, u := items[0].id, Fail(cfg, s, items[0].id, true, now), PostRejected(cfg, s, items, now);
      assert ids[0] == i && ids[1..] == ItemIds(items[1..]);
      RefuseTurn(cfg, s, i, now);
      OthersLater(ids);
      PostRejectedDoes(cfg, t, items[1..], now);
      EachFirst(s, t, u, ids, RefuseRule(cfg, now));
      EachSame(s, t, [i], RefuseRule(cfg, now), ids[1..]);
      UnfinishedSame(s, t, ids[1..]);
      LeftThen(s, t, u, if s.Get(i).Terminal() then [] else [i], Unfinished(t, ids[1..]));
    }
  }

  /**
   * A full cache with nobody to preempt ends the unfinished planned request as rejected, and leaves those cancelled
   * meanwhile where they are: terminal, resident and not finalized.
   */
  lemma {:induction false} RefusedExactly(m: Model, cfg: Config, s: Sys, now: int)
    requires Inv(m, cfg, s) && s.phase.Landed? && s.phase.outcome.CapacityError? && !TwoUnfinished(s)
    ensures var t, ids := Step(m, cfg, s, EPost(now)), ItemIds(s.phase.items);
      && t.phase.Idle? && t.waiting == s.waiting && t.active == Without(s.active, Unfinished(s, ids))
      && |t.reqs| == |s.reqs| && forall i :: 0 <= i < |s.reqs| ==>
        if i in ids && !s.reqs[i].Terminal() then EndsAs(cfg, s.reqs[i], t.reqs[i], Failed, true, now)
        else t.reqs[i] == s.reqs[i]
  {
    hide Core, PostRejected, EndsAs, NoDup, Each, TwoUnfinished, Without, CanPreempt;
    var items, idle := s.phase.items, s.(phase := Idle);
    PhaseCore(m, cfg, s, items, Unfed, Idle, s.metrics);
    PlannedResidents(m, cfg, idle, items, Unfed);
    assert !TwoUnfinished(idle) by {
      SameUnfinished(s, idle);
    }
    PreemptsWithTwo(idle);
    PostRejectedDoes(cfg, idle, items, now);
    var t := PostRejected(cfg, idle, items, now);
    UnfinishedAre(idle, ItemIds(items));
    UnfinishedSame(s, idle, ItemIds(items));
    QueueStays(idle, t, Unfinished(idle, ItemIds(items)), items);
    RefusedRecords(cfg, s, idle, t, ItemIds(items), now);
  }

  lemma {:induction false} RefusedRecords(cfg: Config, s: Sys, idle: Sys, t: Sys, ids: seq<nat>, now: int)
    requires Each(idle, t, ids, RefuseRule(cfg, now)) && idle.reqs == s.reqs
    ensures |t.reqs| == |s.reqs| && forall i :: 0 <= i < |s.reqs| ==>
      if i in ids && !s.reqs[i].Terminal() then EndsAs(cfg, s.reqs[i], t.reqs[i], Failed, true, now)
      else t.reqs[i] == s.reqs[i]
  {
    hide EndsAs;
  }

  lemma {:induction false} SameUnfinished(s: Sys, t: Sys)
    requires t == s.(phase := t.phase)
    ensures TwoUnfinished(s) <==> TwoUnfinished(t)
  {
  }
}
