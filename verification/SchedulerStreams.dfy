/** What moves do to request records: streams lose nothing, terminal states absorb, words only grow. */
module SchedulerStreams {
  import opened Lists
  import opened Transformer
  import opened KvCache
  import opened Packing
  import opened Runner
  import opened Scheduling
  import opened SchedulerCore
  import opened SchedulerPlan
  import opened SchedulerRun
  import opened SchedulerMoves

  /** Moves that rewrite a single existing record. */
  predicate OneRecord(v: Move) {
    !v.MSubmit? && !v.MSkip? && !v.MPlan? && !v.MLand? && !v.MIdle?
  }

  function HeadId(items: seq<BatchItem>): nat {
    if items == [] then 0 else items[0].id
  }

  function TouchedId(a: Point, v: Move): nat {
    match v
    case MConsume(j) => j
    case MDrain(j, _) => j
    case MRecompute(j, _) => j
    case MMark(j) => j
    case MEnd(j, _, _, _) => j
    case MAdmit(_) => if a.s.waiting == [] then 0 else a.s.waiting[0]
    case MEvict(w) => w
    case _ => HeadId(a.items)
  }

  /** The record a single-record move leaves. */
  function NewRecord(cfg: Config, a: Point, v: Move): Req {
    var i := TouchedId(a, v);
    var r := a.s.Get(i);
    match v
    case MConsume(_) => if r.queue == [] then r else r.(queue := r.queue[1..], consumed := r.consumed + [r.queue[0]])
    case MDrain(_, now) => Drained(r, cfg.streamCapacity, now)
    case MRecompute(_, item) => Recomputed(r, item)
    case MMark(_) => r.(state := Cancelled)
    case MEnd(_, state, rejected, now) => FinalRecord(r.(state := state, rejected := rejected), cfg.streamCapacity, now)
    case MFinal(now) => FinalRecord(r, cfg.streamCapacity, now)
    case MToken(token, now) =>
      var w := WithToken(r, token, cfg.streamCapacity, now);
      if EosHit(r, token) || |r.generated| + 1 >= r.maxOut then FinalRecord(w, cfg.streamCapacity, now) else w
    case MPrefill => r.(state := Prefill)
    case MAdmit(_) => r.(state := Prefill, fed := a.s.cache.Reserve0(i).Restore(i, r.prompt).1)
    case MEvict(_) => r.(recomputeUntil := r.fed, fed := 0, preemptions := r.preemptions + 1, state := Waiting)
    case _ => r
  }

  /** The little the core invariant says about places, enough for reasoning about records. */
  ghost predicate Tidy(a: Point) {
    && NoDup(ItemIds(a.items)) && NoDup(a.s.active) && NoDup(a.s.waiting)
    && (forall i :: i in a.s.active ==> i < |a.s.reqs| && a.s.reqs[i].finalized == 0)
    && (forall i :: i in a.s.waiting ==> i < |a.s.reqs| && a.s.reqs[i].finalized == 0 && !a.s.reqs[i].Terminal())
    && (forall i :: !(i in a.s.active && i in a.s.waiting))
    && (forall k :: 0 <= k < |a.items| ==> a.items[k].id in a.s.active)
  }

  lemma {:induction false} OkTidy(m: Model, cfg: Config, a: Point)
    requires Ok(m, cfg, a)
    ensures Tidy(a)
  {
    forall k | 0 <= k < |a.items| ensures a.items[k].id in a.s.active {
      assert ItemInFlight(m, cfg, a.s, a.items[k], a.mode);
    }
  }

  lemma {:induction false} TouchedExists(m: Model, cfg: Config, a: Point, v: Move)
    requires Tidy(a) && Guard(m, cfg, a, v) && OneRecord(v)
    ensures TouchedId(a, v) < |a.s.reqs|
    ensures !v.MConsume? ==> a.s.reqs[TouchedId(a, v)].finalized == 0
  {
    if v.MAdmit? {
      assert a.s.waiting[0] in a.s.waiting;
    }
  }

  /** Single-record moves rewrite exactly the touched record. */
  lemma {:induction false} Touch(cfg: Config, a: Point, v: Move)
    requires OneRecord(v) && TouchedId(a, v) < |a.s.reqs|
    requires v.MAdmit? ==> a.s.waiting != [] && a.s.cache.CanReserve(a.s.waiting[0], 0)
    ensures Moved(cfg, a, v).s.reqs == a.s.reqs[TouchedId(a, v) := NewRecord(cfg, a, v)]
  {
    hide Teardown, Counted, Drained, FinalRecord, Cache.Restore, Cache.Reserve, BuildPlan;
    var i, r := TouchedId(a, v), a.s.reqs[TouchedId(a, v)];
    match v
    case MConsume(_) => assert a.s.reqs[i := r] == a.s.reqs;
    case MDrain(_, _) =>
    case MRecompute(_, _) =>
    case MMark(_) =>
    case MEnd(_, state, rejected, now) =>
      assert a.s.reqs[i := r.(state := state, rejected := rejected)][i := NewRecord(cfg, a, v)] ==
        a.s.reqs[i := NewRecord(cfg, a, v)];
    case MFinal(_) =>
    case MToken(token, now) =>
      assert a.s.reqs[i := WithToken(r, token, cfg.streamCapacity, now)][i := NewRecord(cfg, a, v)] ==
        a.s.reqs[i := NewRecord(cfg, a, v)];
    case MPrefill =>
    case MAdmit(_) =>
    case MEvict(_) =>
  }

  /** Moves that leave the plan alone and the record in flight. */
  predicate Passing(v: Move) {
    v.MConsume? || v.MDrain? || v.MRecompute? || v.MMark?
  }

  lemma {:induction false} RestFacts(items: seq<BatchItem>, i: nat)
    requires NoDup(ItemIds(items)) && (i in ItemIds(items) ==> items[0].id == i)
    ensures forall k :: 0 <= k < |Rest(items, i)| ==> Rest(items, i)[k] in items && Rest(items, i)[k].id != i
  {
    if items != [] {
      assert items == [items[0]] + items[1..];
      assert ItemIds(items) == [items[0].id] + ItemIds(items[1..]);
      assert forall k :: 0 <= k < |items[1..]| ==> ItemIds(items)[k + 1] == items[1..][k].id;
      assert forall k :: 0 <= k < |items| ==> ItemIds(items)[k] == items[k].id;
    }
  }

  /** After a single-record move the remaining items are old items, of other requests unless the move just passes. */
  lemma {:induction false} ItemsAfter(m: Model, cfg: Config, a: Point, v: Move)
    requires Tidy(a) && Guard(m, cfg, a, v) && OneRecord(v)
    ensures forall k :: 0 <= k < |Moved(cfg, a, v).items| ==>
      Moved(cfg, a, v).items[k] in a.items && (Passing(v) || Moved(cfg, a, v).items[k].id != TouchedId(a, v))
  {
    var i := TouchedId(a, v);
    match v
    case MFinal(_) => RestFacts(a.items, i);
    case MToken(_, _) => RestFacts(a.items, i);
    case MPrefill => RestFacts(a.items, i);
    case MEnd(_, _, _, _) => RestOfEnded(a.items, i);
    case MAdmit(_) => assert i in a.s.waiting;
    case _ =>
  }

  lemma {:induction false} RestOfEnded(items: seq<BatchItem>, i: nat)
    requires i !in ItemIds(Rest(items, i))
    ensures forall k :: 0 <= k < |Rest(items, i)| ==> Rest(items, i)[k] in items && Rest(items, i)[k].id != i
  {
    forall k | 0 <= k < |Rest(items, i)| ensures Rest(items, i)[k] in items && Rest(items, i)[k].id != i {
      assert ItemIds(Rest(items, i))[k] == Rest(items, i)[k].id;
    }
  }

  // -- streams -----------------------------------------------------------------------------

  /** The events a list of generated tokens stands for; an end-of-sequence hit is published without a token. */
  function TokenEvents(generated: seq<Token>, eos: Option<Token>): seq<StreamEvent> {
    if generated == [] then [] else
    var n := |generated| - 1;
    TokenEvents(generated[..n], eos) +
      [StreamEvent(if eos == Some(generated[n]) then None else Some(generated[n]), false)]
  }

  /** Everything published so far, delivered or not. */
  function Stream(r: Req): seq<StreamEvent> {
    r.consumed + r.queue + r.pending
  }

  /**
   * Consumed, queued and pending events are together the token events in generation order, then STOP if and
   * only if the request has been finalized; the queue respects its capacity; at most one token event and one
   * STOP ever wait outside it; the stall clock runs exactly while something waits.
   */
  ghost predicate StreamOk(cfg: Config, r: Req) {
    && Stream(r) == TokenEvents(r.generated, r.eos) + (if r.finalized > 0 then [STOP] else [])
    && (cfg.streamCapacity > 0 ==> |r.queue| <= cfg.streamCapacity)
    && |r.pending| <= 1 + r.finalized && r.finalized <= 1
    && (r.stalled.Some? <==> r.pending != [])
    && r.resolved == r.finalized
  }

  ghost predicate StreamsOk(cfg: Config, a: Point) {
    && (forall i :: 0 <= i < |a.s.reqs| ==> StreamOk(cfg, a.s.reqs[i]))
    && (forall k :: 0 <= k < |a.items| ==> !a.s.Get(a.items[k].id).Terminal() ==> a.s.Get(a.items[k].id).pending == [])
  }

  lemma {:induction false} DrainedStream(r: Req, capacity: int, now: int)
    requires capacity > 0 ==> |r.queue| <= capacity
    ensures var d := Drained(r, capacity, now);
      && Stream(d) == Stream(r) && |d.pending| <= |r.pending| && (capacity > 0 ==> |d.queue| <= capacity)
      && (d.stalled.Some? <==> d.pending != []) && (r.pending == [] ==> d.pending == [])
    decreases |r.pending|
  {
    if r.pending == [] || QueueFull(capacity, |r.queue|) {
    } else {
      var r' := r.(queue := r.queue + [r.pending[0]], pending := r.pending[1..]);
      assert r.pending == [r.pending[0]] + r'.pending;
      assert Stream(r') == Stream(r);
      DrainedStream(r', capacity, now);
    }
  }

  lemma {:induction false} PublishedStream(r: Req, e: StreamEvent, capacity: int, now: int)
    requires capacity > 0 ==> |r.queue| <= capacity
    ensures var d := Published(r, e, capacity, now);
      && Stream(d) == Stream(r) + [e] && |d.pending| <= |r.pending| + 1 && (capacity > 0 ==> |d.queue| <= capacity)
      && (d.stalled.Some? <==> d.pending != [])
  {
    assert Stream(r.(pending := r.pending + [e])) == Stream(r) + [e];
    DrainedStream(r.(pending := r.pending + [e]), capacity, now);
  }

  lemma {:induction false} FinalStream(cfg: Config, r: Req, now: int)
    requires StreamOk(cfg, r) && r.finalized == 0
    ensures StreamOk(cfg, FinalRecord(r, cfg.streamCapacity, now))
  {
    PublishedStream(r, STOP, cfg.streamCapacity, now);
    DrainedFacts(r.(pending := r.pending + [STOP]), cfg.streamCapacity, now);
  }

  lemma {:induction false} TokenEventsSnoc(generated: seq<Token>, token: Token, eos: Option<Token>)
    ensures TokenEvents(generated + [token], eos) ==
            TokenEvents(generated, eos) + [StreamEvent(if eos == Some(token) then None else Some(token), false)]
  {
    assert (generated + [token])[..|generated|] == generated;
  }

  lemma {:induction false} TokenStream(cfg: Config, r: Req, token: Token, now: int)
    requires StreamOk(cfg, r) && r.finalized == 0 && r.pending == []
    ensures StreamOk(cfg, WithToken(r, token, cfg.streamCapacity, now))
    ensures WithToken(r, token, cfg.streamCapacity, now).finalized == 0
  {
    var g := r.(generated := r.generated + [token]);
    var e := StreamEvent(if EosHit(r, token) then None else Some(token), false);
    TokenEventsSnoc(r.generated, token, r.eos);
    assert Stream(g) == Stream(r) == TokenEvents(r.generated, r.eos);
    PublishedStream(g, e, cfg.streamCapacity, now);
    DrainedFacts(g.(pending := g.pending + [e]), cfg.streamCapacity, now);
  }

  lemma {:induction false} ConsumedStream(cfg: Config, r: Req)
    requires StreamOk(cfg, r) && r.queue != []
    ensures StreamOk(cfg, r.(queue := r.queue[1..], consumed := r.consumed + [r.queue[0]]))
  {
    assert r.queue == [r.queue[0]] + r.queue[1..];
    assert Stream(r.(queue := r.queue[1..], consumed := r.consumed + [r.queue[0]])) == Stream(r);
  }

  lemma {:induction false} NewRecordStream(cfg: Config, a: Point, v: Move)
    requires OneRecord(v) && TouchedId(a, v) < |a.s.reqs| && StreamOk(cfg, a.s.reqs[TouchedId(a, v)])
    requires !v.MConsume? ==> a.s.reqs[TouchedId(a, v)].finalized == 0
    requires v.MToken? ==> a.s.reqs[TouchedId(a, v)].pending == []
    ensures StreamOk(cfg, NewRecord(cfg, a, v))
  {
    var r := a.s.reqs[TouchedId(a, v)];
    match v
    case MConsume(_) => if r.queue != [] { ConsumedStream(cfg, r); }
    case MDrain(_, now) =>
      DrainedStream(r, cfg.streamCapacity, now);
      DrainedFacts(r, cfg.streamCapacity, now);
    case MEnd(_, state, rejected, now) => FinalStream(cfg, r.(state := state, rejected := rejected), now);
    case MFinal(now) => FinalStream(cfg, r, now);
    case MToken(token, now) =>
      TokenStream(cfg, r, token, now);
      FinalStream(cfg, WithToken(r, token, cfg.streamCapacity, now), now);
    case _ =>
  }

  /** Moves that pass by a record in flight leave nothing pending on it, and leave a terminal one terminal. */
  lemma {:induction false} PassingRecord(cfg: Config, a: Point, v: Move)
    requires Passing(v) && TouchedId(a, v) < |a.s.reqs|
    ensures var r, r' := a.s.reqs[TouchedId(a, v)], NewRecord(cfg, a, v);
      (r.Terminal() ==> r'.Terminal()) && (r.pending == [] ==> r'.pending == [])
  {
    match v
    case MDrain(j, now) => DrainedFacts(a.s.Get(j), cfg.streamCapacity, now);
    case _ =>
  }

  lemma {:induction false} ReplacedStreams(cfg: Config, a: Point, b: Point, i: nat, r': Req)
    requires StreamsOk(cfg, a) && i < |a.s.reqs| && b.s.reqs == a.s.reqs[i := r'] && StreamOk(cfg, r')
    requires forall k :: 0 <= k < |a.items| ==> a.items[k].id < |a.s.reqs|
    requires forall k :: 0 <= k < |b.items| ==> b.items[k] in a.items
    requires (forall k :: 0 <= k < |b.items| ==> b.items[k].id != i) ||
             ((a.s.reqs[i].Terminal() ==> r'.Terminal()) && (a.s.reqs[i].pending == [] ==> r'.pending == []))
    ensures StreamsOk(cfg, b)
  {
    forall k | 0 <= k < |b.items| && !b.s.Get(b.items[k].id).Terminal() ensures b.s.Get(b.items[k].id).pending == [] {
      var j :| 0 <= j < |a.items| && a.items[j] == b.items[k];
      assert a.s.Get(a.items[j].id).Terminal() || a.s.Get(a.items[j].id).pending == [];
    }
  }

  lemma {:induction false} OneRecordStreams(m: Model, cfg: Config, a: Point, v: Move)
    requires Tidy(a) && Guard(m, cfg, a, v) && OneRecord(v) && StreamsOk(cfg, a)
    ensures StreamsOk(cfg, Moved(cfg, a, v))
  {
    TouchedExists(m, cfg, a, v);
    Touch(cfg, a, v);
    ItemsAfter(m, cfg, a, v);
    NewRecordStream(cfg, a, v);
    if Passing(v) {
      PassingRecord(cfg, a, v);
    }
    ReplacedStreams(cfg, a, Moved(cfg, a, v), TouchedId(a, v), NewRecord(cfg, a, v));
  }

  /** Landing changes positions only. */
  lemma {:induction false} LandRecords(a: Point, outcome: Outcome, cache: Cache, ran: bool)
    requires Tidy(a)
    ensures var b := Land(a.s, a.items, outcome, cache, ran);
      |b.reqs| == |a.s.reqs| && forall i :: 0 <= i < |a.s.reqs| ==>
        b.reqs[i] == a.s.reqs[i].(fed := b.reqs[i].fed, executed := b.reqs[i].executed)
    ensures Land(a.s, a.items, outcome, cache, ran).metrics == a.s.metrics.(plans := a.s.metrics.plans + 1,
      tokens := a.s.metrics.tokens + if ran then TokenCount(a.items) else 0)
  {
    FedAllFacts(a.s, a.items);
    var b := Land(a.s, a.items, outcome, cache, ran);
    forall i | 0 <= i < |a.s.reqs|
      ensures b.reqs[i] == a.s.reqs[i].(fed := b.reqs[i].fed, executed := b.reqs[i].executed) {
      if i in ItemIds(a.items) {
        var k :| 0 <= k < |a.items| && a.items[k].id == i;
      }
    }
  }

  lemma {:induction false} SameStreams(cfg: Config, a: Point, b: Point)
    requires StreamsOk(cfg, a) && |b.s.reqs| == |a.s.reqs| && (forall k :: 0 <= k < |b.items| ==> b.items[k] in a.items)
    requires forall i :: 0 <= i < |a.s.reqs| ==>
      b.s.reqs[i] == a.s.reqs[i].(fed := b.s.reqs[i].fed, executed := b.s.reqs[i].executed)
    requires forall k :: 0 <= k < |a.items| ==> a.items[k].id < |a.s.reqs|
    ensures StreamsOk(cfg, b)
  {
    forall i | 0 <= i < |a.s.reqs| ensures StreamOk(cfg, b.s.reqs[i]) {
      assert StreamOk(cfg, a.s.reqs[i]);
    }
    forall k | 0 <= k < |b.items| && !b.s.Get(b.items[k].id).Terminal() ensures b.s.Get(b.items[k].id).pending == [] {
      var j :| 0 <= j < |a.items| && a.items[j] == b.items[k];
      assert a.s.Get(a.items[j].id).Terminal() || a.s.Get(a.items[j].id).pending == [];
    }
  }

  lemma {:induction false} PlanStreams(cfg: Config, a: Point)
    requires StreamsOk(cfg, a) && NoDup(a.s.active)
    ensures StreamsOk(cfg, Moved(cfg, a, MPlan))
  {
    hide StreamOk, BuildPlan, TokenCount, ItemIds;
    PlanGuarantees(cfg, a.s);
    assert forall k :: 0 <= k < |BuildPlan(cfg, a.s)| ==> NextSlice(a.s, BuildPlan(cfg, a.s)[k]);
  }

  lemma {:induction false} SubmitStreams(cfg: Config, a: Point, prompt: seq<Token>, maxOut: int, eos: Option<Token>,
                                         now: int)
    requires StreamsOk(cfg, a) && Tidy(a)
    ensures StreamsOk(cfg, Moved(cfg, a, MSubmit(prompt, maxOut, eos, now)))
  {
    assert StreamOk(cfg, NewRequest(prompt, maxOut, eos, now));
    forall k | 0 <= k < |a.items| ensures a.items[k].id < |a.s.reqs| {
      assert a.items[k].id in a.s.active;
    }
  }

  lemma {:induction false} StreamsMove(m: Model, cfg: Config, a: Point, v: Move)
    requires Tidy(a) && Guard(m, cfg, a, v) && StreamsOk(cfg, a)
    ensures StreamsOk(cfg, Moved(cfg, a, v))
  {
    hide StreamsOk, Land;
    if OneRecord(v) {
      OneRecordStreams(m, cfg, a, v);
    } else {
      match v
      case MLand(outcome, cache, ran) =>
        LandRecords(a, outcome, cache, ran);
        SameStreams(cfg, a, Moved(cfg, a, v));
      case MPlan => PlanStreams(cfg, a);
      case MSubmit(prompt, maxOut, eos, now) => SubmitStreams(cfg, a, prompt, maxOut, eos, now);
      case MSkip => SameStreams(cfg, a, Moved(cfg, a, v));
      case MIdle => SameStreams(cfg, a, Moved(cfg, a, v));
    }
  }

  lemma {:induction false} StreamsClosed(m: Model, cfg: Config)
    ensures Closed(m, cfg, (a: Point) => StreamsOk(cfg, a))
  {
    var P := (a: Point) => StreamsOk(cfg, a);
    forall a, v | Enabled(m, cfg, a, v) && P(a) ensures P(Moved(cfg, a, v)) {
      OkTidy(m, cfg, a);
      StreamsMove(m, cfg, a, v);
    }
  }

  /** Stream order without loss, over every run. */
  lemma {:induction false} StreamsOverRuns(m: Model, cfg: Config, s: Sys, events: seq<Event>, i: nat)
    requires Initial(m, s) && i < |Run(m, cfg, s, events).reqs|
    ensures StreamOk(cfg, Run(m, cfg, s, events).reqs[i])
  {
    StreamsClosed(m, cfg);
    InitialInv(m, cfg, s);
    RunKeeps(m, cfg, (a: Point) => StreamsOk(cfg, a), s, events);
  }

  /** Over every run an unfinished planned request has nothing undelivered. */
  lemma {:induction false} PlannedDelivered(m: Model, cfg: Config, s: Sys, events: seq<Event>)
    requires Initial(m, s)
    ensures StreamsOk(cfg, PointOf(Run(m, cfg, s, events)))
  {
    StreamsClosed(m, cfg);
    InitialInv(m, cfg, s);
    RunKeeps(m, cfg, (a: Point) => StreamsOk(cfg, a), s, events);
  }
}
