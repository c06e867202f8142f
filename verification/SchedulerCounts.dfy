/** Terminal states absorb, and every submitted request is accounted for exactly once. */
module SchedulerCounts {
  import opened Lists
  import opened Transformer
  import opened KvCache
  import opened Packing
  import opened Runner
  import opened Scheduling
  import opened SchedulerCore
  import opened SchedulerRun
  import opened SchedulerMoves
  import opened SchedulerStreams

  // -- absorbing states ------------------------------------------------------------------------

  /** How a record may change over time: words only grow, and nothing about a terminal request changes its mind. */
  ghost predicate Evolved(r: Req, r': Req) {
    && r'.prompt == r.prompt && r'.maxOut == r.maxOut && r'.eos == r.eos && r'.arrival == r.arrival
    && r.generated <= r'.generated && r.consumed <= r'.consumed
    && r.finalized <= r'.finalized && r.preemptions <= r'.preemptions && r.executed <= r'.executed
    && (r.Terminal() ==> r'.state == r.state && r'.generated == r.generated && r'.rejected == r.rejected)
  }

  ghost predicate EvolvedFrom(s0: Sys, a: Point) {
    |s0.reqs| <= |a.s.reqs| && forall i :: 0 <= i < |s0.reqs| ==> Evolved(s0.reqs[i], a.s.reqs[i])
  }

  /** Draining touches the queue, the overflow list and the stall clock only. */
  lemma {:induction false} DrainedOnlyStream(r: Req, capacity: int, now: int)
    ensures var d := Drained(r, capacity, now); d == r.(queue := d.queue, pending := d.pending, stalled := d.stalled)
    decreases |r.pending|
  {
    if r.pending == [] || QueueFull(capacity, |r.queue|) {
    } else {
      DrainedOnlyStream(r.(queue := r.queue + [r.pending[0]], pending := r.pending[1..]), capacity, now);
    }
  }

  lemma {:induction false} FinalOnlyStream(r: Req, capacity: int, now: int)
    ensures var d := FinalRecord(r, capacity, now);
      d == r.(queue := d.queue, pending := d.pending, stalled := d.stalled, finalized := r.finalized + 1,
        resolved := d.resolved)
  {
    DrainedOnlyStream(r.(pending := r.pending + [STOP]), capacity, now);
  }

  lemma {:induction false} TokenOnlyStream(r: Req, token: Token, capacity: int, now: int)
    ensures var d := WithToken(r, token, capacity, now);
      d == r.(queue := d.queue, pending := d.pending, stalled := d.stalled, state := d.state,
              generated := r.generated + [token])
  {
    var g := r.(generated := r.generated + [token]);
    DrainedOnlyStream(g.(pending := g.pending + [StreamEvent(if EosHit(r, token) then None else Some(token), false)]),
      capacity, now);
  }

  lemma {:induction false} NewRecordEvolved(cfg: Config, a: Point, v: Move)
    requires OneRecord(v) && TouchedId(a, v) < |a.s.reqs|
    requires v.MEnd? || v.MToken? || v.MPrefill? || v.MAdmit? || v.MEvict? || v.MMark? ==>
      !a.s.reqs[TouchedId(a, v)].Terminal()
    ensures Evolved(a.s.reqs[TouchedId(a, v)], NewRecord(cfg, a, v))
  {
    var r := a.s.reqs[TouchedId(a, v)];
    match v
    case MDrain(_, now) => DrainedOnlyStream(r, cfg.streamCapacity, now);
    case MEnd(_, state, rejected, now) => FinalOnlyStream(r.(state := state, rejected := rejected), cfg.streamCapacity,
      now);
    case MFinal(now) => FinalOnlyStream(r, cfg.streamCapacity, now);
    case MToken(token, now) =>
      TokenOnlyStream(r, token, cfg.streamCapacity, now);
      FinalOnlyStream(WithToken(r, token, cfg.streamCapacity, now), cfg.streamCapacity, now);
    case _ =>
  }

  lemma {:induction false} MovesOnTheLiving(m: Model, cfg: Config, a: Point, v: Move)
    requires Tidy(a) && Guard(m, cfg, a, v) && OneRecord(v)
    ensures TouchedId(a, v) < |a.s.reqs|
    ensures v.MEnd? || v.MToken? || v.MPrefill? || v.MAdmit? || v.MEvict? || v.MMark? ==>
      !a.s.reqs[TouchedId(a, v)].Terminal()
  {
    TouchedExists(m, cfg, a, v);
    if v.MAdmit? {
      assert a.s.waiting[0] in a.s.waiting;
    }
  }

  lemma {:induction false} EvolvedOne(m: Model, cfg: Config, s0: Sys, a: Point, v: Move)
    requires Tidy(a) && Guard(m, cfg, a, v) && OneRecord(v) && EvolvedFrom(s0, a)
    ensures EvolvedFrom(s0, Moved(cfg, a, v))
  {
    MovesOnTheLiving(m, cfg, a, v);
    AdmitReady(m, cfg, a, v);
    Touch(cfg, a, v);
    NewRecordEvolved(cfg, a, v);
    ReplacedEvolved(s0, a, Moved(cfg, a, v), TouchedId(a, v), NewRecord(cfg, a, v));
  }

  lemma {:induction false} ReplacedEvolved(s0: Sys, a: Point, b: Point, i: nat, r': Req)
    requires EvolvedFrom(s0, a) && i < |a.s.reqs| && b.s.reqs == a.s.reqs[i := r'] && Evolved(a.s.reqs[i], r')
    ensures EvolvedFrom(s0, b)
  {
  }

  lemma {:induction false} EvolvedMove(m: Model, cfg: Config, s0: Sys, a: Point, v: Move)
    requires Tidy(a) && Guard(m, cfg, a, v) && EvolvedFrom(s0, a)
    ensures EvolvedFrom(s0, Moved(cfg, a, v))
  {
    if OneRecord(v) {
      EvolvedOne(m, cfg, s0, a, v);
    } else if v.MLand? {
      LandRecords(a, v.outcome, v.cache, v.ran);
      LandExecutes(a, v.outcome, v.cache, v.ran);
    }
  }

  lemma {:induction false} LandExecutes(a: Point, outcome: Outcome, cache: Cache, ran: bool)
    requires Tidy(a)
    ensures var b := Land(a.s, a.items, outcome, cache, ran);
      |b.reqs| == |a.s.reqs| && forall i :: 0 <= i < |a.s.reqs| ==> a.s.reqs[i].executed <= b.reqs[i].executed
  {
    FedAllFacts(a.s, a.items);
    forall i | 0 <= i < |a.s.reqs| ensures a.s.reqs[i].executed <= FedAll(a.s, a.items).reqs[i].executed {
      if i in ItemIds(a.items) {
        var k :| 0 <= k < |a.items| && a.items[k].id == i;
      }
    }
  }

  lemma {:induction false} EvolvedClosed(m: Model, cfg: Config, s0: Sys)
    ensures Closed(m, cfg, (a: Point) => EvolvedFrom(s0, a))
  {
    var P := (a: Point) => EvolvedFrom(s0, a);
    forall a, v | Enabled(m, cfg, a, v) && P(a) ensures P(Moved(cfg, a, v)) {
      OkTidy(m, cfg, a);
      EvolvedMove(m, cfg, s0, a, v);
    }
  }

  lemma {:induction false} RunSplit(m: Model, cfg: Config, s: Sys, before: seq<Event>, after: seq<Event>)
    ensures Run(m, cfg, s, before + after) == Run(m, cfg, Run(m, cfg, s, before), after)
  {
    if after == [] {
      assert before + after == before;
    } else {
      assert (before + after)[..|before + after| - 1] == before + after[..|after| - 1];
      RunSplit(m, cfg, s, before, after[..|after| - 1]);
    }
  }

  /** Terminal states are absorbing, and no request ever takes back a token: for any two moments of any run. */
  lemma {:induction false} TerminalAbsorbing(m: Model, cfg: Config, s: Sys, before: seq<Event>, after: seq<Event>)
    requires Initial(m, s)
    ensures var s0, s1 := Run(m, cfg, s, before), Run(m, cfg, s, before + after);
      |s0.reqs| <= |s1.reqs| && forall i :: 0 <= i < |s0.reqs| ==> Evolved(s0.reqs[i], s1.reqs[i])
  {
    hide Inv, Run, Closed;
    RunInv(m, cfg, s, before);
    RunSplit(m, cfg, s, before, after);
    var s0 := Run(m, cfg, s, before);
    EvolvedClosed(m, cfg, s0);
    RunKeeps(m, cfg, (a: Point) => EvolvedFrom(s0, a), s0, after);
  }

  // -- counters ----------------------------------------------------------------------------------

  /** Adds up `f` over all requests. */
  function Total(reqs: seq<Req>, f: Req -> nat): nat {
    if reqs == [] then 0 else Total(reqs[..|reqs| - 1], f) + f(reqs[|reqs| - 1])
  }

  lemma {:induction false} TotalUpdate(reqs: seq<Req>, f: Req -> nat, i: nat, r: Req)
    requires i < |reqs|
    ensures Total(reqs[i := r], f) == Total(reqs, f) - f(reqs[i]) + f(r)
  {
    var n := |reqs| - 1;
    if i == n {
      assert reqs[i := r][..n] == reqs[..n];
    } else {
      assert reqs[i := r][..n] == reqs[..n][i := r];
      TotalUpdate(reqs[..n], f, i, r);
    }
  }

  lemma {:induction false} TotalSnoc(reqs: seq<Req>, f: Req -> nat, r: Req)
    ensures Total(reqs + [r], f) == Total(reqs, f) + f(r)
  {
    assert (reqs + [r])[..|reqs|] == reqs;
  }

  lemma {:induction false} TotalSame(reqs: seq<Req>, reqs': seq<Req>, f: Req -> nat)
    requires |reqs| == |reqs'| && forall i :: 0 <= i < |reqs| ==> f(reqs[i]) == f(reqs'[i])
    ensures Total(reqs, f) == Total(reqs', f)
  {
    if reqs != [] {
      TotalSame(reqs[..|reqs| - 1], reqs'[..|reqs| - 1], f);
    }
  }

  datatype Bin = BCompleted | BCancelled | BTimedOut | BFailed | BRejected

  /** The counter a finalized request belongs to. */
  function BinOf(r: Req): Option<Bin> {
    if r.finalized == 0 then None else
    match r.state
    case Completed => Some(BCompleted)
    case Cancelled => Some(BCancelled)
    case TimedOut => Some(BTimedOut)
    case Failed => Some(if r.rejected then BRejected else BFailed)
    case _ => None
  }

  function Reading(k: Metrics, b: Bin): nat {
    match b
    case BCompleted => k.completed
    case BCancelled => k.cancelled
    case BTimedOut => k.timedOut
    case BFailed => k.failed
    case BRejected => k.rejected
  }

  function InBin(b: Bin): Req -> nat {
    (r: Req) => if BinOf(r) == Some(b) then 1 else 0
  }

  /** Each terminal counter reads the number of finalized requests that ended that way. */
  ghost predicate CountersOk(a: Point) {
    && (forall b :: Reading(a.s.metrics, b) == Total(a.s.reqs, InBin(b)))
    && a.s.metrics.preempted == Total(a.s.reqs, (r: Req) => r.preemptions)
  }

  /** Whether a move finalizes the record it touches. */
  predicate Finalizing(a: Point, v: Move) {
    match v
    case MEnd(_, _, _, _) => true
    case MFinal(_) => true
    case MToken(token, _) =>
      var r := a.s.Get(TouchedId(a, v));
      EosHit(r, token) || |r.generated| + 1 >= r.maxOut
    case _ => false
  }

  lemma {:induction false} MetricsAfter(cfg: Config, a: Point, v: Move)
    requires OneRecord(v) && TouchedId(a, v) < |a.s.reqs|
    requires v.MAdmit? ==> a.s.waiting != [] && a.s.cache.CanReserve(a.s.waiting[0], 0)
    ensures Moved(cfg, a, v).s.metrics ==
      if Finalizing(a, v) then Counted(a.s.metrics, NewRecord(cfg, a, v))
      else if v.MEvict? then a.s.metrics.(preempted := a.s.metrics.preempted + 1)
      else a.s.metrics
  {
    hide Drained, Teardown, Rest, Cache.Reserve, BuildPlan;
    var r := a.s.reqs[TouchedId(a, v)];
    match v
    case MEnd(_, state, rejected, now) => FinalOnlyStream(r.(state := state, rejected := rejected), cfg.streamCapacity,
      now);
    case MFinal(now) => FinalOnlyStream(r, cfg.streamCapacity, now);
    case MToken(token, now) =>
      TokenOnlyStream(r, token, cfg.streamCapacity, now);
      FinalOnlyStream(WithToken(r, token, cfg.streamCapacity, now), cfg.streamCapacity, now);
    case _ =>
  }

  /** What a single-record move does to the facts the counters depend on. */
  lemma {:induction false} RecordAfter(cfg: Config, a: Point, v: Move)
    requires OneRecord(v) && TouchedId(a, v) < |a.s.reqs|
    requires !v.MConsume? ==> a.s.reqs[TouchedId(a, v)].finalized == 0
    ensures var r, r' := a.s.reqs[TouchedId(a, v)], NewRecord(cfg, a, v);
      && r'.finalized == r.finalized + (if Finalizing(a, v) then 1 else 0)
      && r'.preemptions == r.preemptions + (if v.MEvict? then 1 else 0)
      && (v.MConsume? ==> r'.state == r.state && r'.rejected == r.rejected)
  {
    var r := a.s.reqs[TouchedId(a, v)];
    match v
    case MDrain(_, now) => DrainedOnlyStream(r, cfg.streamCapacity, now);
    case MEnd(_, state, rejected, now) => FinalOnlyStream(r.(state := state, rejected := rejected), cfg.streamCapacity,
      now);
    case MFinal(now) => FinalOnlyStream(r, cfg.streamCapacity, now);
    case MToken(token, now) =>
      TokenOnlyStream(r, token, cfg.streamCapacity, now);
      FinalOnlyStream(WithToken(r, token, cfg.streamCapacity, now), cfg.streamCapacity, now);
    case _ =>
  }

  lemma {:induction false} AdmitReady(m: Model, cfg: Config, a: Point, v: Move)
    requires Guard(m, cfg, a, v)
    ensures v.MAdmit? ==> a.s.waiting != [] && a.s.cache.CanReserve(a.s.waiting[0], 0)
  {
  }

  lemma {:induction false} OneRecordCounters(m: Model, cfg: Config, a: Point, v: Move)
    requires Tidy(a) && Guard(m, cfg, a, v) && OneRecord(v) && CountersOk(a)
    ensures CountersOk(Moved(cfg, a, v))
  {
    hide NewRecord, Moved, Guard;
    TouchedExists(m, cfg, a, v);
    AdmitReady(m, cfg, a, v);
    Touch(cfg, a, v);
    MetricsAfter(cfg, a, v);
    RecordAfter(cfg, a, v);
    var i, r' := TouchedId(a, v), NewRecord(cfg, a, v);
    var r, b := a.s.reqs[i], Moved(cfg, a, v);
    forall bin ensures Reading(b.s.metrics, bin) == Total(b.s.reqs, InBin(bin)) {
      TotalUpdate(a.s.reqs, InBin(bin), i, r');
      if Finalizing(a, v) {
        BinReading(a.s.metrics, r', bin);
      }
    }
    TotalUpdate(a.s.reqs, (q: Req) => q.preemptions, i, r');
  }

  lemma {:induction false} BinReading(k: Metrics, r: Req, bin: Bin)
    requires r.finalized > 0
    ensures Reading(Counted(k, r), bin) == Reading(k, bin) + InBin(bin)(r)
  {
  }

  lemma {:induction false} CountersMove(m: Model, cfg: Config, a: Point, v: Move)
    requires Tidy(a) && Guard(m, cfg, a, v) && CountersOk(a)
    ensures CountersOk(Moved(cfg, a, v))
  {
    var b := Moved(cfg, a, v);
    if OneRecord(v) {
      OneRecordCounters(m, cfg, a, v);
    } else if v.MLand? {
      LandRecords(a, v.outcome, v.cache, v.ran);
      LandCounters(a, b);
    } else if v.MSubmit? {
      SubmitCounters(cfg, a, v);
    }
  }

  lemma {:induction false} LandCounters(a: Point, b: Point)
    requires CountersOk(a) && |b.s.reqs| == |a.s.reqs|
    requires b.s.metrics == a.s.metrics.(plans := b.s.metrics.plans, tokens := b.s.metrics.tokens)
    requires forall i :: 0 <= i < |a.s.reqs| ==>
      b.s.reqs[i] == a.s.reqs[i].(fed := b.s.reqs[i].fed, executed := b.s.reqs[i].executed)
    ensures CountersOk(b)
  {
    forall bin ensures Reading(b.s.metrics, bin) == Total(b.s.reqs, InBin(bin)) {
      TotalSame(a.s.reqs, b.s.reqs, InBin(bin));
    }
    TotalSame(a.s.reqs, b.s.reqs, (q: Req) => q.preemptions);
  }

  lemma {:induction false} SubmitCounters(cfg: Config, a: Point, v: Move)
    requires CountersOk(a) && v.MSubmit?
    ensures CountersOk(Moved(cfg, a, v))
  {
    var r := NewRequest(v.prompt, v.maxOut, v.eos, v.now);
    forall bin ensures Reading(Moved(cfg, a, v).s.metrics, bin) == Total(Moved(cfg, a, v).s.reqs, InBin(bin)) {
      TotalSnoc(a.s.reqs, InBin(bin), r);
    }
    TotalSnoc(a.s.reqs, (q: Req) => q.preemptions, r);
  }

  lemma {:induction false} CountersClosed(m: Model, cfg: Config)
    ensures Closed(m, cfg, (a: Point) => CountersOk(a))
  {
    var P := (a: Point) => CountersOk(a);
    forall a, v | Enabled(m, cfg, a, v) && P(a) ensures P(Moved(cfg, a, v)) {
      OkTidy(m, cfg, a);
      CountersMove(m, cfg, a, v);
    }
  }

  // -- the exact balance ------------------------------------------------------------------------

  function IsOpen(): Req -> nat {
    (r: Req) => if r.finalized == 0 then 1 else 0
  }

  /** The unfinished requests, by number. */
  function Open(reqs: seq<Req>): seq<nat> {
    if reqs == [] then [] else
    var n := |reqs| - 1;
    if reqs[n].finalized == 0 then Open(reqs[..n]) + [n] else Open(reqs[..n])
  }

  lemma {:induction false} OpenFacts(reqs: seq<Req>)
    ensures NoDup(Open(reqs)) && |Open(reqs)| == Total(reqs, IsOpen())
    ensures forall i: nat :: i in Open(reqs) <==> i < |reqs| && reqs[i].finalized == 0
  {
    if reqs != [] {
      OpenFacts(reqs[..|reqs| - 1]);
      assert |reqs| - 1 !in Open(reqs[..|reqs| - 1]);
    }
  }

  /** The two lists hold exactly the unfinished requests. */
  lemma {:induction false} ListsHoldTheOpen(cfg: Config, s: Sys)
    requires Places(cfg, s)
    ensures |s.waiting| + |s.active| == Total(s.reqs, IsOpen())
  {
    OpenFacts(s.reqs);
    NoDupConcat(s.waiting, s.active);
    SameMembersSameLength(s.waiting + s.active, Open(s.reqs));
  }

  lemma {:induction false} EveryoneSomewhere(reqs: seq<Req>)
    requires forall i :: 0 <= i < |reqs| && reqs[i].finalized != 0 ==> reqs[i].Terminal()
    ensures |reqs| == Total(reqs, IsOpen()) + Total(reqs, InBin(BCompleted)) + Total(reqs, InBin(BCancelled)) +
      Total(reqs, InBin(BTimedOut)) + Total(reqs, InBin(BFailed)) + Total(reqs, InBin(BRejected))
  {
    if reqs != [] {
      var n := |reqs| - 1;
      assert reqs[n].finalized != 0 ==> reqs[n].Terminal();
      EveryoneSomewhere(reqs[..n]);
    }
  }

  /** What the funnel guarantees of a state. */
  ghost predicate Balanced(cfg: Config, s: Sys) {
    && NoDup(s.waiting) && NoDup(s.active) && (forall i :: !(i in s.waiting && i in s.active))
    && (s.active == [] || |s.active| <= cfg.activeLimit)
    && (forall i :: 0 <= i < |s.reqs| ==>
          && s.reqs[i].finalized <= 1 && s.reqs[i].resolved == s.reqs[i].finalized
          && (s.reqs[i].finalized == 1 ==> s.reqs[i].Terminal()))
    && |s.reqs| == |s.waiting| + |s.active| + s.metrics.completed + s.metrics.cancelled + s.metrics.timedOut +
         s.metrics.failed + s.metrics.rejected
  }

  lemma {:induction false} CountersAtEnd(m: Model, cfg: Config, s: Sys, events: seq<Event>)
    requires Initial(m, s)
    ensures CountersOk(PointOf(Run(m, cfg, s, events)))
  {
    InitialInv(m, cfg, s);
    CountersClosed(m, cfg);
    CountersStart(s);
    RunKeeps(m, cfg, (a: Point) => CountersOk(a), s, events);
  }


  /**
   * Exactly-once terminal funnel, over every run, including cancellation while in flight: the lists are
   * duplicate-free and disjoint, each request is finalized at most once with one future resolution and one
   * counter increment, and submissions balance.
   */
  lemma {:induction false} FunnelOverRuns(m: Model, cfg: Config, s: Sys, events: seq<Event>)
    requires Initial(m, s)
    ensures Balanced(cfg, Run(m, cfg, s, events))
  {
    hide Inv, Run, AllFaithful, CacheOk, Places, CountersOk, Reading;
    var s' := Run(m, cfg, s, events);
    CountersAtEnd(m, cfg, s, events);
    RunInv(m, cfg, s, events);
    InvParts(m, cfg, s');
    ResolvedOnce(m, cfg, s, events);
    BalancedAtEnd(cfg, s');
  }

  lemma {:induction false} ResolvedOnce(m: Model, cfg: Config, s: Sys, events: seq<Event>)
    requires Initial(m, s)
    ensures forall r :: r in Run(m, cfg, s, events).reqs ==> r.resolved == r.finalized
  {
    hide Run;
    var s' := Run(m, cfg, s, events);
    forall r | r in s'.reqs ensures r.resolved == r.finalized {
      var i :| 0 <= i < |s'.reqs| && s'.reqs[i] == r;
      StreamsOverRuns(m, cfg, s, events, i);
    }
  }

  lemma {:induction false} BalancedAtEnd(cfg: Config, s: Sys)
    requires Places(cfg, s) && CountersOk(PointOf(s)) && forall r :: r in s.reqs ==> r.resolved == r.finalized
    ensures Balanced(cfg, s)
  {
    hide CountersOk, Reading, OneReturned;
    ListsHoldTheOpen(cfg, s);
    EveryoneSomewhere(s.reqs);
    Readings(s);
  }

  lemma {:induction false} Readings(s: Sys)
    requires CountersOk(PointOf(s))
    ensures s.metrics.completed == Total(s.reqs, InBin(BCompleted))
    ensures s.metrics.cancelled == Total(s.reqs, InBin(BCancelled))
    ensures s.metrics.timedOut == Total(s.reqs, InBin(BTimedOut)) && s.metrics.failed == Total(s.reqs, InBin(BFailed))
    ensures s.metrics.rejected == Total(s.reqs, InBin(BRejected))
  {
    assert Reading(s.metrics, BCompleted) == s.metrics.completed &&
      Reading(s.metrics, BCancelled) == s.metrics.cancelled;
    assert Reading(s.metrics, BTimedOut) == s.metrics.timedOut && Reading(s.metrics, BFailed) == s.metrics.failed;
    assert Reading(s.metrics, BRejected) == s.metrics.rejected;
  }

  lemma {:induction false} CountersStart(s: Sys)
    requires s.reqs == [] && s.metrics == NoWork()
    ensures CountersOk(PointOf(s))
  {
  }
}
