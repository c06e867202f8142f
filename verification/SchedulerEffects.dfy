/**
 * What a client's call and an iteration do to every request, list and counter, as statements about `Step`: who
 * leaves and how, whose events move, who is admitted, and that nobody else changes.
 */
module SchedulerEffects {
  import opened Lists
  import opened Transformer
  import opened KvCache
  import opened KvCacheContent
  import opened Scheduling
  import opened SchedulerCore
  import opened SchedulerRecords
  import opened SchedulerQueue
  import opened SchedulerPlan
  import opened SchedulerRun
  import opened SchedulerStreams
  import opened SchedulerProgress

  // -- submission ---------------------------------------------------------------------------------

  /**
   * A submission is refused exactly for an empty prompt, a prompt and limit beyond the context, or a full queue,
   * and then changes nothing; otherwise a fresh request joins the end of the queue.
   */
  lemma {:induction false} SubmitExactly(m: Model, cfg: Config, s: Sys, prompt: seq<Token>, maxOut: int,
                                         eos: Option<Token>, now: int)
    ensures var t, fits := Step(m, cfg, s, ESubmit(prompt, maxOut, eos, now)),
      prompt != [] && |prompt| + maxOut <= cfg.maxModelLen;
      && (t == s <==> !fits || |s.waiting| >= cfg.maxQueue)
      && (SubmitCheck(cfg, s, prompt, maxOut) == Some(ContextOverflow) <==> !fits)
      && (SubmitCheck(cfg, s, prompt, maxOut) == Some(QueueIsFull) <==> fits && |s.waiting| >= cfg.maxQueue)
      && (fits && |s.waiting| < cfg.maxQueue ==>
            t == s.(waiting := s.waiting + [|s.reqs|],
                    reqs := s.reqs + [Req(prompt, maxOut, eos, now, Waiting, [], 0, [], [], None, [], false, 0, 0, 0, 0,
                                          0, 0)]))
  {
    var t := Step(m, cfg, s, ESubmit(prompt, maxOut, eos, now));
    assert t != s ==> |t.reqs| == |s.reqs| + 1;
    if prompt != [] && |prompt| + maxOut <= cfg.maxModelLen && |s.waiting| < cfg.maxQueue {
      assert |t.reqs| == |s.reqs| + 1;
    }
  }

  // -- cancellation -------------------------------------------------------------------------------

  /** Request `i` is out of the engine: finalized exactly once, in neither list, without blocks. */
  ghost predicate Gone(s: Sys, i: nat) {
    && i < |s.reqs| && s.reqs[i].finalized == 1 && s.reqs[i].Terminal()
    && i !in s.waiting && i !in s.active && i !in s.cache.tables
  }

  /** What a cancellation of an unfinished request changes. */
  ghost predicate CancelEffect(cfg: Config, s: Sys, t: Sys, i: nat, now: int)
    requires i < |s.reqs|
  {
    if i in s.InFlight() then t == s.(reqs := s.reqs[i := s.reqs[i].(state := Cancelled)]) else
    && Gone(t, i) && |t.reqs| == |s.reqs| && EndsAs(cfg, s.reqs[i], t.reqs[i], Cancelled, s.reqs[i].rejected, now)
    && (forall j :: 0 <= j < |s.reqs| && j != i ==> t.reqs[j] == s.reqs[j])
    && t.waiting == Without(s.waiting, [i]) && t.active == Without(s.active, [i]) && t.phase == s.phase
    && t.metrics == s.metrics.(cancelled := s.metrics.cancelled + 1)
    && t.cache.tables == s.cache.tables - {i} && t.cache.lengths == s.cache.lengths - {i}
  }

  /**
   * In every reachable state and in every phase, a cancellation takes effect: at once and completely if the
   * request is not in flight, as a mark only if it is, and not at all on a finished request.
   */
  lemma {:induction false} CancelExactly(m: Model, cfg: Config, s: Sys, i: nat, now: int)
    requires Inv(m, cfg, s) && i < |s.reqs|
    ensures var t := Step(m, cfg, s, ECancel(i, now));
      if s.reqs[i].Terminal() then t == s else t.Get(i).state.Cancelled? && CancelEffect(cfg, s, t, i, now)
  {
    hide Inv, EndsAs, Finalize, CancelEffect;
    if !s.reqs[i].Terminal() {
      if i in s.InFlight() {
        MarkedOnly(cfg, s, i, now);
      } else {
        InvParts(m, cfg, s);
        CancelledCache(m, cfg, s, i, now);
        StepInv(m, cfg, s, ECancel(i, now));
        InvParts(m, cfg, Step(m, cfg, s, ECancel(i, now)));
        CancelledOut(cfg, s, i, now);
      }
    }
  }

  lemma {:induction false} MarkedOnly(cfg: Config, s: Sys, i: nat, now: int)
    requires i < |s.reqs| && !s.reqs[i].Terminal() && i in s.InFlight()
    ensures Cancel(cfg, s, i, now).Get(i).state.Cancelled? && CancelEffect(cfg, s, Cancel(cfg, s, i, now), i, now)
  {
  }

  lemma {:induction false} CancelledOut(cfg: Config, s: Sys, i: nat, now: int)
    requires i < |s.reqs| && !s.reqs[i].Terminal() && i !in s.InFlight() && Places(cfg, s)
    requires var t := Cancel(cfg, s, i, now);
      Places(cfg, t) && t.cache.tables == s.cache.tables - {i} && t.cache.lengths == s.cache.lengths - {i}
    ensures Cancel(cfg, s, i, now).Get(i).state.Cancelled? && CancelEffect(cfg, s, Cancel(cfg, s, i, now), i, now)
  {
    hide EndsAs, Finalize, Places, Without;
    ListsApart(cfg, s);
    var t, r := Cancel(cfg, s, i, now), s.reqs[i];
    assert r.(state := Cancelled) == r.(state := Cancelled, rejected := r.rejected);
    FinalizeLeaves(cfg, s, i, Cancelled, r.rejected, now);
    OutOfBoth(cfg, s, t, i);
    EndedState(cfg, r, t.reqs[i], Cancelled, r.rejected, now);
  }

  lemma {:induction false} ListsApart(cfg: Config, s: Sys)
    requires Places(cfg, s)
    ensures NoDup(s.waiting) && NoDup(s.active) && forall i :: !(i in s.waiting && i in s.active)
    ensures forall i :: i in s.active ==> i < |s.reqs| && !s.reqs[i].state.Waiting?
    ensures forall i :: i in s.waiting ==> i < |s.reqs| && s.reqs[i].state.Waiting?
  {
  }

  lemma {:induction false} EndedState(cfg: Config, r: Req, r': Req, state: RequestState, rejected: bool, now: int)
    requires EndsAs(cfg, r, r', state, rejected, now)
    ensures r'.state == state && r'.finalized == r.finalized + 1
  {
  }

  /** Who has left both lists is finalized and has no blocks. */
  lemma {:induction false} OutOfBoth(cfg: Config, s: Sys, t: Sys, i: nat)
    requires Places(cfg, t) && i < |t.reqs| && Left(s, t, [i])
    ensures Gone(t, i)
  {
    WithoutFacts(s.waiting, [i]);
    WithoutFacts(s.active, [i]);
  }

  lemma {:induction false} CancelledCache(m: Model, cfg: Config, s: Sys, i: nat, now: int)
    requires CacheOk(m, s) && i < |s.reqs| && !s.reqs[i].Terminal() && i !in s.InFlight()
    ensures var t := Step(m, cfg, s, ECancel(i, now));
      && t.cache.tables == s.cache.tables - {i} && t.cache.lengths == s.cache.lengths - {i}
      && t.cache == Teardown(s.cache, i, s.reqs[i].prompt)
  {
    hide Cache.Valid, Agrees, FinalRecord, Cache.Store, Cache.Release;
    TeardownFacts(m, s.cache, i, s.reqs[i].prompt, Hist(s));
  }

  // -- an iteration: who is reaped ------------------------------------------------------------------

  /** What reaping leaves of a record. */
  ghost predicate ReapedRecord(cfg: Config, s: Sys, i: nat, r': Req, now: int)
    requires i < |s.reqs|
  {
    if i in s.waiting then WaiterRule(cfg, now)(i, s.reqs[i], r')
    else if i in s.active then ResidentRule(cfg, now)(i, s.reqs[i], r')
    else r' == s.reqs[i]
  }

  /** The overdue waiters and the stalled residents have left, ended; nobody else has changed. */
  ghost predicate Reaped(cfg: Config, s: Sys, t: Sys, now: int) {
    && t.waiting == Without(s.waiting, Overdues(cfg, s, s.waiting, now))
    && t.active == Without(s.active, Stallers(cfg, s, s.active, now))
    && t.phase == s.phase && |t.reqs| == |s.reqs|
    && forall i :: 0 <= i < |s.reqs| ==> ReapedRecord(cfg, s, i, t.reqs[i], now)
  }

  lemma {:induction false} ReapedBoth(cfg: Config, s: Sys, a: Sys, b: Sys, now: int)
    requires forall i :: !(i in s.waiting && i in s.active)
    requires Each(s, a, s.waiting, WaiterRule(cfg, now)) && Left(s, a, Overdues(cfg, s, s.waiting, now))
    requires a.active == s.active
    requires Each(a, b, a.active, ResidentRule(cfg, now)) && Left(a, b, Stallers(cfg, a, a.active, now))
    ensures Reaped(cfg, s, b, now)
  {
    hide WaiterRule, ResidentRule;
    EachSame(s, a, s.waiting, WaiterRule(cfg, now), s.active);
    StallersSame(cfg, s, a, s.active, now);
    StallersAre(cfg, s, s.active, now);
    WithoutDisjoint(a.waiting, Stallers(cfg, a, a.active, now)) by {
      WithoutFacts(s.waiting, Overdues(cfg, s, s.waiting, now));
    }
  }

  lemma {:induction false} ReapDoes(m: Model, cfg: Config, s: Sys, now: int)
    requires Core(m, cfg, s, [], Unfed) && s.phase.Idle?
    ensures Reaped(cfg, s, Reap(cfg, s, now), now) && Core(m, cfg, Reap(cfg, s, now), [], Unfed)
  {
    hide Core, Each, Left, ReapWaiting, ReapActive, NoDup;
    PlacesOf(m, cfg, s, [], Unfed);
    ListsApart(cfg, s);
    ReapWaitingCore(m, cfg, s, s.waiting, now);
    ReapWaitingExactly(m, cfg, s, s.waiting, now);
    var a := ReapWaiting(cfg, s, s.waiting, now);
    PlacesOf(m, cfg, a, [], Unfed);
    ListsApart(cfg, a);
    SameResidents(cfg, s, a, now);
    ActiveRecords(m, cfg, a);
    ReapActiveCore(m, cfg, a, a.active, now);
    ReapActiveExactly(m, cfg, a, a.active, now);
    ReapedBoth(cfg, s, a, ReapActive(cfg, a, a.active, now), now);
  }

  lemma {:induction false} SameResidents(cfg: Config, s: Sys, a: Sys, now: int)
    requires Left(s, a, Overdues(cfg, s, s.waiting, now)) && forall i :: !(i in s.waiting && i in s.active)
    ensures a.active == s.active && a.phase == s.phase
  {
    OverduesAre(cfg, s, s.waiting, now);
    WithoutDisjoint(s.active, Overdues(cfg, s, s.waiting, now));
  }

  // -- an iteration: whose events move --------------------------------------------------------------

  ghost predicate DrainedRecord(cfg: Config, r: Req, r': Req, now: int) {
    && Flushed(r, [], r', cfg.streamCapacity, now)
    && r' == r.(queue := r'.queue, pending := r'.pending, stalled := r'.stalled)
  }

  /** What draining does to a resident's record. */
  ghost function DrainRule(cfg: Config, now: int): (nat, Req, Req) -> bool {
    (i: nat, r: Req, r': Req) =>
      if r.pending == [] then r' == r else DrainedRecord(cfg, r, r', now)
  }

  lemma {:induction false} DrainDoes(cfg: Config, s: Sys, ids: seq<nat>, now: int)
    requires NoDup(ids) && forall i :: i in ids ==> i < |s.reqs|
    ensures var t := DrainStreams(cfg, s, ids, now);
      Each(s, t, ids, DrainRule(cfg, now)) && t == s.(reqs := t.reqs)
    decreases |ids|
  {
    hide Each, NoDup;
    if ids == [] {
      EachNone(s, s, DrainRule(cfg, now));
    } else {
      assert ids[0] in ids;
      var t := DrainOne(cfg, s, ids[0], now);
      OthersLater(ids);
      DrainOneDoes(cfg, s, ids[0], now);
      DrainDoes(cfg, t, ids[1..], now);
      EachFirst(s, t, DrainStreams(cfg, s, ids, now), ids, DrainRule(cfg, now));
    }
  }

  lemma {:induction false} DrainOneDoes(cfg: Config, s: Sys, i: nat, now: int)
    requires i < |s.reqs|
    ensures var t := DrainOne(cfg, s, i, now);
      Each(s, t, [i], DrainRule(cfg, now)) && t == s.(reqs := t.reqs) && |t.reqs| == |s.reqs|
  {
    var k := DrainedFlushes(s.reqs[i], cfg.streamCapacity, now);
  }

  // -- an iteration as a whole ------------------------------------------------------------------------

  /** What an iteration leaves of a record. */
  ghost predicate IteratedRecord(cfg: Config, s: Sys, t: Sys, i: nat, now: int)
    requires i < |s.reqs| && i < |t.reqs|
  {
    var r, r' := s.reqs[i], t.reqs[i];
    if i in s.waiting then
      if Overdue(cfg, r, now) then EndsAs(cfg, r, r', TimedOut, r.rejected, now)
      else if i in t.active then r' == r.(state := Prefill, fed := r'.fed)
      else r' == r
    else if i in s.active then
      if StalledTooLong(cfg, r, now) then EndsAs(cfg, r, r', Cancelled, r.rejected, now)
      else DrainRule(cfg, now)(i, r, r')
    else r' == r
  }

  /**
   * An iteration: the overdue leave the queue and the stalled leave the engine, ended; the other residents stay,
   * their events moved on; the first `k` of the other waiters join them, in order, until the engine is full, the
   * queue is empty or a preempted request would not be alone; the rest keep their places.
   */
  ghost predicate Iterated(cfg: Config, s: Sys, t: Sys, now: int, k: nat) {
    var waiters, residents := Without(s.waiting, Overdues(cfg, s, s.waiting, now)),
      Without(s.active, Stallers(cfg, s, s.active, now));
    && |t.reqs| == |s.reqs| && k <= |waiters|
    && t.active == residents + waiters[..k] && t.waiting == waiters[k..]
    && (k == |waiters| || |t.active| >= cfg.activeLimit ||
        (s.Get(waiters[k]).preemptions > 0 && t.active != []))
    && (forall j :: 0 <= j < k && s.Get(waiters[j]).preemptions > 0 ==> j == 0 && residents == [])
    && (forall i :: 0 <= i < |s.reqs| ==> IteratedRecord(cfg, s, t, i, now))
  }

  /** Reaped, drained, then admitted: the records. */
  lemma {:induction false} IteratedOne(cfg: Config, s: Sys, b: Sys, d: Sys, t: Sys, k: nat, i: nat, now: int)
    requires Places(cfg, s) && Reaped(cfg, s, b, now) && i < |s.reqs|
    requires Each(b, d, b.active, DrainRule(cfg, now)) && d.waiting == b.waiting && d.active == b.active
    requires k <= |d.waiting| && Each(d, t, d.waiting[..k], AdmitRule()) && t.active == d.active + d.waiting[..k]
    requires forall j :: !(j in b.waiting && j in b.active)
    ensures i < |t.reqs| && IteratedRecord(cfg, s, t, i, now)
  {
    hide EndsAs, DrainRule, AdmitRule, Without, Places, WaiterRule, ResidentRule;
    ListsApart(cfg, s);
    WhoIsLeft(cfg, s, b, i, now);
    var head := d.waiting[..k];
    assert i in head ==> i in d.waiting;
    assert i in t.active <==> i in d.active || i in head;
    assert ReapedRecord(cfg, s, i, b.reqs[i], now);
    assert d.reqs[i] == b.reqs[i] || i in b.active;
    assert t.reqs[i] == d.reqs[i] || i in head;
    RecordThrough(cfg, s, b.reqs[i], d.reqs[i], t, i, now);
  }

  lemma {:induction false} WhoIsLeft(cfg: Config, s: Sys, b: Sys, i: nat, now: int)
    requires Reaped(cfg, s, b, now)
    ensures i in b.waiting <==> i in s.waiting && !Overdue(cfg, s.Get(i), now)
    ensures i in b.active <==> i in s.active && !StalledTooLong(cfg, s.Get(i), now)
  {
    OverduesAre(cfg, s, s.waiting, now);
    StallersAre(cfg, s, s.active, now);
    WithoutFacts(s.waiting, Overdues(cfg, s, s.waiting, now));
    WithoutFacts(s.active, Stallers(cfg, s, s.active, now));
  }

  lemma {:induction false} RecordThrough(cfg: Config, s: Sys, b: Req, d: Req, t: Sys, i: nat, now: int)
    requires i < |s.reqs| && i < |t.reqs| && ReapedRecord(cfg, s, i, b, now) && !(i in s.waiting && i in s.active)
    requires var r := s.reqs[i];
      && (if i in s.active && !StalledTooLong(cfg, r, now) then DrainRule(cfg, now)(i, b, d) else d == b)
      && (if i in s.waiting && !Overdue(cfg, r, now) && i in t.active then AdmitRule()(i, d, t.reqs[i])
          else t.reqs[i] == d)
    ensures IteratedRecord(cfg, s, t, i, now)
  {
    hide EndsAs, DrainedRecord, Overdue, StalledTooLong;
  }

  lemma {:induction false} StagesIterate(m: Model, cfg: Config, s: Sys, b: Sys, d: Sys, t: Sys, k: nat, now: int)
    requires Places(cfg, s) && Places(cfg, b) && Reaped(cfg, s, b, now)
    requires Each(b, d, b.active, DrainRule(cfg, now)) && d == b.(reqs := d.reqs)
    requires AdmittedFirst(cfg, d, t, k) && Each(d, t, d.waiting[..k], AdmitRule())
    ensures Iterated(cfg, s, t, now, k)
  {
    hide Places, IteratedRecord, ReapedRecord, Without, DrainedRecord;
    ListsApart(cfg, b);
    forall i | 0 <= i < |s.reqs| ensures IteratedRecord(cfg, s, t, i, now) {
      IteratedOne(cfg, s, b, d, t, k, i, now);
    }
    WaitersPreempted(cfg, s, b, d, now);
  }

  /** Nobody's count of preemptions has changed on the way. */
  lemma {:induction false} WaitersPreempted(cfg: Config, s: Sys, b: Sys, d: Sys, now: int)
    requires Places(cfg, s) && Places(cfg, b) && Reaped(cfg, s, b, now)
    requires Each(b, d, b.active, DrainRule(cfg, now))
    ensures forall i :: i in b.waiting ==> d.Get(i).preemptions == s.Get(i).preemptions
  {
    hide EndsAs, Without, DrainRule;
    ListsApart(cfg, s);
    ListsApart(cfg, b);
    OverduesAre(cfg, s, s.waiting, now);
    WithoutFacts(s.waiting, Overdues(cfg, s, s.waiting, now));
    forall i | i in b.waiting ensures d.Get(i).preemptions == s.Get(i).preemptions {
      assert ReapedRecord(cfg, s, i, b.reqs[i], now);
    }
  }

  /** In every reachable state between iterations, an iteration does exactly that. */
  lemma {:induction false} IterateExactly(m: Model, cfg: Config, s: Sys, now: int) returns (k: nat)
    requires Inv(m, cfg, s) && s.phase.Idle?
    ensures Iterated(cfg, s, Step(m, cfg, s, EIterate(now)), now, k)
  {
    hide Core, Inv, Reap, DrainStreams, AdmitWaiting, BuildPlan, Each, AdmittedFirst, Reaped, Iterated, Places;
    PhaseParts(m, cfg, s);
    ReapDoes(m, cfg, s, now);
    var b := Reap(cfg, s, now);
    PlacesOf(m, cfg, s, [], Unfed);
    PlacesOf(m, cfg, b, [], Unfed);
    ListsApart(cfg, b);
    DrainDoes(cfg, b, b.active, now);
    DrainStreamsCore(m, cfg, b, b.active, now);
    var d := DrainStreams(cfg, b, b.active, now);
    k := AdmitInOrder(m, cfg, d, now);
    var n := AdmitRecords(m, cfg, d, now);
    var t := AdmitWaiting(cfg, d, now);
    SameCount(cfg, d, t, k, n);
    StagesIterate(m, cfg, s, b, d, t, k, now);
    IteratedPlan(cfg, s, t, Step(m, cfg, s, EIterate(now)), now, k);
  }

  lemma {:induction false} SameCount(cfg: Config, d: Sys, t: Sys, k: nat, n: nat)
    requires AdmittedFirst(cfg, d, t, k) && |t.active| == |d.active| + n
    ensures k == n
  {
  }

  /** Planning looks only. */
  lemma {:induction false} IteratedPlan(cfg: Config, s: Sys, t: Sys, u: Sys, now: int, k: nat)
    requires Iterated(cfg, s, t, now, k) && u == t.(phase := u.phase)
    ensures Iterated(cfg, s, u, now, k)
  {
    forall i | 0 <= i < |s.reqs| ensures IteratedRecord(cfg, s, u, i, now) {
      assert IteratedRecord(cfg, s, t, i, now);
    }
  }

  // -- a client reads ---------------------------------------------------------------------------------

  ghost predicate TakesOne(s: Sys, t: Sys, i: nat, e: StreamEvent, rest: seq<StreamEvent>)
    requires i < |s.reqs|
  {
    && s.reqs[i].queue == [e] + rest
    && t == s.(reqs := s.reqs[i := s.reqs[i].(queue := rest, consumed := s.reqs[i].consumed + [e])])
  }

  /** A client takes one event at a time, the oldest queued, and changes nothing else. */
  lemma {:induction false} ConsumeExactly(m: Model, cfg: Config, s: Sys, i: nat)
    requires i < |s.reqs|
    ensures var r, t := s.reqs[i], Step(m, cfg, s, EConsume(i));
      if r.queue == [] then t == s else exists e, rest :: TakesOne(s, t, i, e, rest)
  {
    var r := s.reqs[i];
    if r.queue != [] {
      assert TakesOne(s, Step(m, cfg, s, EConsume(i)), i, r.queue[0], r.queue[1..]);
    }
  }

  // -- over runs ----------------------------------------------------------------------------------------

  lemma {:induction false} IdleAgain(m: Model, cfg: Config, s0: Sys, events: seq<Event>, now: int)
    requires Initial(m, s0) && Run(m, cfg, s0, events).phase.Idle?
    ensures var s := Run(m, cfg, s0, events); var t := Step(m, cfg, s, EIterate(now));
      Inv(m, cfg, s) && Inv(m, cfg, t) && Places(cfg, s) && Places(cfg, t)
  {
    hide Inv, Step, Run, Initial, Places;
    RunInv(m, cfg, s0, events);
    var s := Run(m, cfg, s0, events);
    StepInv(m, cfg, s, EIterate(now));
    InvParts(m, cfg, s);
    InvParts(m, cfg, Step(m, cfg, s, EIterate(now)));
  }

  /**
   * Reaping over every run: a waiter is timed out and finalized by an iteration exactly when it arrived longer ago
   * than the queue timeout, wherever it stands and however often it was preempted; an unfinished resident is
   * cancelled and finalized exactly when its consumer has blocked it for longer than the stall timeout. Everybody
   * else is still in one of the lists.
   */
  lemma {:induction false} ReapedOverRuns(m: Model, cfg: Config, s0: Sys, events: seq<Event>, now: int, i: nat)
    requires Initial(m, s0) && Run(m, cfg, s0, events).phase.Idle?
    ensures var s := Run(m, cfg, s0, events); var t, r := Step(m, cfg, s, EIterate(now)), s.Get(i);
      && (i in s.waiting ==>
            && (t.Get(i).state.TimedOut? <==> now - r.arrival > cfg.queueTimeout)
            && (Gone(t, i) <==> now - r.arrival > cfg.queueTimeout)
            && (now - r.arrival <= cfg.queueTimeout ==> i in t.waiting || i in t.active))
      && (i in s.active && !r.Terminal() ==>
            && (t.Get(i).state.Cancelled? <==> r.stalled.Some? && now - r.stalled.value > cfg.stallTimeout)
            && (Gone(t, i) <==> r.stalled.Some? && now - r.stalled.value > cfg.stallTimeout)
            && (r.stalled.Some? ==> now - r.stalled.value <= cfg.stallTimeout ==> i in t.active))
  {
    hide Inv, Step, Run, Initial, Places;
    IdleAgain(m, cfg, s0, events, now);
    var s := Run(m, cfg, s0, events);
    var k := IterateExactly(m, cfg, s, now);
    ReapedFrom(cfg, s, Step(m, cfg, s, EIterate(now)), now, k, i);
  }

  lemma {:induction false} ReapedFrom(cfg: Config, s: Sys, t: Sys, now: int, k: nat, i: nat)
    requires Places(cfg, s) && Places(cfg, t) && Iterated(cfg, s, t, now, k)
    ensures i in s.waiting && Overdue(cfg, s.Get(i), now) ==> Gone(t, i) && t.Get(i).state.TimedOut?
    ensures i in s.waiting && !Overdue(cfg, s.Get(i), now) ==>
      (i in t.waiting || i in t.active) && !t.Get(i).Terminal()
    ensures i in s.active && StalledTooLong(cfg, s.Get(i), now) ==> Gone(t, i) && t.Get(i).state.Cancelled?
    ensures i in s.active && !StalledTooLong(cfg, s.Get(i), now) ==>
      i in t.active && (!s.Get(i).Terminal() ==> !t.Get(i).Terminal())
  {
    hide EndsAs, DrainedRecord, Without, NoDup, OneReturned, Overdue, StalledTooLong;
    ListsApart(cfg, s);
    StillListed(cfg, s, t, now, k, i);
    if i in s.waiting || i in s.active {
      assert i < |s.reqs| && IteratedRecord(cfg, s, t, i, now);
      EndedBoth(cfg, s.reqs[i], t.reqs[i], now);
      NotListed(cfg, t, i);
    }
  }

  lemma {:induction false} EndedBoth(cfg: Config, r: Req, r': Req, now: int)
    ensures EndsAs(cfg, r, r', TimedOut, r.rejected, now) ==> r'.state.TimedOut?
    ensures EndsAs(cfg, r, r', Cancelled, r.rejected, now) ==> r'.state.Cancelled?
    ensures DrainedRecord(cfg, r, r', now) ==> r'.state == r.state
  {
  }

  lemma {:induction false} NotListed(cfg: Config, t: Sys, i: nat)
    requires Places(cfg, t) && i < |t.reqs|
    ensures i !in t.waiting && i !in t.active ==> Gone(t, i)
    ensures i in t.waiting || i in t.active ==> !Gone(t, i)
  {
  }

  lemma {:induction false} StillListed(cfg: Config, s: Sys, t: Sys, now: int, k: nat, i: nat)
    requires Iterated(cfg, s, t, now, k) && forall j :: !(j in s.waiting && j in s.active)
    ensures i in t.waiting || i in t.active <==>
      (i in s.waiting && !Overdue(cfg, s.Get(i), now)) || (i in s.active && !StalledTooLong(cfg, s.Get(i), now))
    ensures i in s.active && i in t.active <==> i in s.active && !StalledTooLong(cfg, s.Get(i), now)
  {
    hide IteratedRecord, Without;
    OverduesAre(cfg, s, s.waiting, now);
    StallersAre(cfg, s, s.active, now);
    WithoutFacts(s.waiting, Overdues(cfg, s, s.waiting, now));
    WithoutFacts(s.active, Stallers(cfg, s, s.active, now));
    var waiters := Without(s.waiting, Overdues(cfg, s, s.waiting, now));
    assert waiters == waiters[..k] + waiters[k..];
  }

  /** Everything that fits has been delivered, and the stall clock runs only behind a full queue. */
  ghost predicate DeliveredAll(cfg: Config, r: Req) {
    if r.pending == [] then r.stalled.None? else r.stalled.Some? && 0 < cfg.streamCapacity == |r.queue|
  }

  /**
   * Delivery over every run: after an iteration every request that was resident before it has undelivered events
   * only behind a full queue; whose queue has room has none, and no stall clock. A request that was waiting has its
   * events as they were, since admission comes after the draining: so a resident falls short exactly if it was
   * preempted with undelivered events and its client has made room since.
   */
  lemma {:induction false} DeliveredOverRuns(m: Model, cfg: Config, s0: Sys, events: seq<Event>, now: int, i: nat)
    requires Initial(m, s0) && Run(m, cfg, s0, events).phase.Idle?
    requires i in Step(m, cfg, Run(m, cfg, s0, events), EIterate(now)).active
    ensures var s := Run(m, cfg, s0, events); var r, r' := s.Get(i), Step(m, cfg, s, EIterate(now)).Get(i);
      && (i in s.active || i in s.waiting)
      && r'.consumed == r.consumed && r'.queue + r'.pending == r.queue + r.pending && |r'.queue| >= |r.queue|
      && (i in s.waiting ==> r'.queue == r.queue && r'.stalled == r.stalled)
      && (DeliveredAll(cfg, r') <==>
            i in s.active || r.pending == [] || (0 < cfg.streamCapacity && |r.queue| >= cfg.streamCapacity))
  {
    hide Inv, Step, Run, Initial, Places;
    IdleAgain(m, cfg, s0, events, now);
    var s := Run(m, cfg, s0, events);
    var t := Step(m, cfg, s, EIterate(now));
    var k := IterateExactly(m, cfg, s, now);
    WasSomewhere(cfg, s, t, now, k, i);
    StreamsOverRuns(m, cfg, s0, events, i);
    StreamsAfter(m, cfg, s0, events, now);
    DeliveredFrom(cfg, s, t, now, i);
  }

  lemma {:induction false} WasSomewhere(cfg: Config, s: Sys, t: Sys, now: int, k: nat, i: nat)
    requires Places(cfg, s) && Iterated(cfg, s, t, now, k) && i in t.active
    ensures i < |s.reqs| && |t.reqs| == |s.reqs| && IteratedRecord(cfg, s, t, i, now)
    ensures i in s.active || i in s.waiting
    ensures !(i in s.active && i in s.waiting)
    ensures i in s.waiting ==> !Overdue(cfg, s.Get(i), now)
    ensures i in s.active ==> !StalledTooLong(cfg, s.Get(i), now)
  {
    hide IteratedRecord, Without, NoDup, OneReturned;
    OverduesAre(cfg, s, s.waiting, now);
    StallersAre(cfg, s, s.active, now);
    WithoutFacts(s.waiting, Overdues(cfg, s, s.waiting, now));
    WithoutFacts(s.active, Stallers(cfg, s, s.active, now));
  }

  lemma {:induction false} DeliveredFrom(cfg: Config, s: Sys, t: Sys, now: int, i: nat)
    requires i < |s.reqs| && |t.reqs| == |s.reqs| && IteratedRecord(cfg, s, t, i, now) && i in t.active
    requires StreamOk(cfg, s.reqs[i]) && StreamOk(cfg, t.reqs[i])
    requires (i in s.active || i in s.waiting) && !(i in s.active && i in s.waiting)
    requires i in s.waiting ==> !Overdue(cfg, s.Get(i), now)
    requires i in s.active ==> !StalledTooLong(cfg, s.Get(i), now)
    ensures var r, r' := s.reqs[i], t.reqs[i];
      && r'.consumed == r.consumed && r'.queue + r'.pending == r.queue + r.pending && |r'.queue| >= |r.queue|
      && (i in s.waiting ==> r'.queue == r.queue && r'.stalled == r.stalled)
      && (DeliveredAll(cfg, r') <==>
            i in s.active || r.pending == [] || (0 < cfg.streamCapacity && |r.queue| >= cfg.streamCapacity))
  {
    hide Overdue, StalledTooLong, StreamOk, DrainedRecord, EndsAs;
    StreamBasics(cfg, s.reqs[i]);
    StreamBasics(cfg, t.reqs[i]);
    if i in s.active && s.reqs[i].pending != [] {
      DrainedDelivers(cfg, s.reqs[i], t.reqs[i], now);
    }
  }

  lemma {:induction false} StreamBasics(cfg: Config, r: Req)
    requires StreamOk(cfg, r)
    ensures (cfg.streamCapacity > 0 ==> |r.queue| <= cfg.streamCapacity) && (r.stalled.Some? <==> r.pending != [])
  {
    hide TokenEvents;
  }

  lemma {:induction false} DrainedDelivers(cfg: Config, r: Req, r': Req, now: int)
    requires DrainedRecord(cfg, r, r', now) && (cfg.streamCapacity > 0 ==> |r'.queue| <= cfg.streamCapacity)
    ensures r'.consumed == r.consumed && r'.queue + r'.pending == r.queue + r.pending && |r'.queue| >= |r.queue|
    ensures DeliveredAll(cfg, r')
  {
    var k: nat :| FlushedUpTo(r, [], r', cfg.streamCapacity, now, k);
    assert r.pending + [] == r.pending;
    Regrouped(r.queue, r.pending, k);
  }

  lemma {:induction false} Regrouped(queue: seq<StreamEvent>, pending: seq<StreamEvent>, k: nat)
    requires k <= |pending|
    ensures (queue + pending[..k]) + pending[k..] == queue + pending
  {
  }
}
