/**
 * A client that reads while its preempted request waits: a concrete run after which the readmitted request is
 * resident, its queue is empty, and an event is still pending.
 */
module SchedulerReadmitted {
  import opened Lists
  import opened Allocator
  import opened Transformer
  import opened KvCache
  import opened Packing
  import opened Runner
  import opened Scheduling
  import opened SchedulerCore
  import opened SchedulerRecords
  import opened SchedulerQueue
  import opened SchedulerRun
  import opened SchedulerMoves
  import opened SchedulerStreams
  import opened SchedulerProgress
  import opened SchedulerTight
  import opened SchedulerCrowd
  import opened SchedulerLeaks
  import opened SchedulerCapacity
  import opened SchedulerEffects
  import opened SchedulerOrder
  import opened SchedulerAftermath
  import opened SchedulerForward

  /** A queue of one event, two places, no deadline at time zero, the production policy. */
  ghost predicate OneEvent(cfg: Config) {
    && !cfg.graph && cfg.streamCapacity == 1 && cfg.activeLimit >= 2 && cfg.victimPriority == LargestSequence
    && cfg.queueTimeout >= 0 && cfg.stallTimeout >= 0 && cfg.maxQueue >= 1 && cfg.maxModelLen >= 4
  }

  function Ask(): Event {
    ESubmit([1], 3, None, 0)
  }

  /** One request, `g` tokens generated, everything but the last of its words fed. */
  ghost predicate OneReq(r: Req, g: nat) {
    && r.prompt == [1] && |r.generated| == g && r.fed == g && r.eos.None? && r.maxOut == 3 && r.arrival == 0
    && !r.Terminal() && r.preemptions == 0
  }

  /** It is alone: waiting with nothing said, or resident. */
  ghost predicate Alone(s: Sys, g: nat) {
    && s.phase.Idle? && |s.reqs| == 1 && OneReq(s.reqs[0], g)
    && ((s.waiting == [0] && s.active == [] && g == 0) || (s.waiting == [] && s.active == [0]))
  }

  /** In the engine, in whatever phase. */
  ghost predicate Inside(s: Sys, g: nat, fed: nat) {
    && |s.reqs| == 1 && OneReq(s.reqs[0].(fed := g), g) && s.reqs[0].fed == fed && s.waiting == [] && s.active == [0]
  }

  /** Every clock reads zero. */
  predicate AtZero(r: Req) {
    r.arrival == 0 && (r.stalled.Some? ==> r.stalled.value == 0)
  }

  lemma {:induction false} NoneReaped(cfg: Config, s: Sys)
    requires OneEvent(cfg) && forall i :: i in s.waiting || i in s.active ==> AtZero(s.Get(i))
    ensures Without(s.waiting, Overdues(cfg, s, s.waiting, 0)) == s.waiting
    ensures Without(s.active, Stallers(cfg, s, s.active, 0)) == s.active
  {
    OverduesAre(cfg, s, s.waiting, 0);
    StallersAre(cfg, s, s.active, 0);
    WithoutDisjoint(s.waiting, Overdues(cfg, s, s.waiting, 0));
    WithoutDisjoint(s.active, Stallers(cfg, s, s.active, 0));
  }

  /** The lone request is in the engine after an iteration, and planned. */
  lemma {:induction false} LoneIterated(m: Model, cfg: Config, s: Sys, t: Sys, g: nat, k: nat)
    requires OneEvent(cfg) && Alone(s, g) && s.reqs[0].pending == [] && s.reqs[0].stalled.None?
    requires Iterated(cfg, s, t, 0, k) && CoreOf(m, cfg, t)
    ensures Inside(t, g, g) && t.reqs[0].queue == s.reqs[0].queue && t.reqs[0].pending == []
    ensures t.reqs[0].stalled.None?
  {
    hide EndsAs, DrainedRecord, Without, CacheOk, AllFaithful;
    NoneReaped(cfg, s);
    assert IteratedRecord(cfg, s, t, 0, 0);
    assert 0 in t.active;
  }

  /** The residents, whatever is in flight: something is left to feed. */
  ghost predicate CoreOf(m: Model, cfg: Config, s: Sys) {
    forall i :: i in s.active && !s.Get(i).Terminal() ==> s.Get(i).fed < |s.Get(i).Known()| && TableExact(s, i)
  }

  lemma {:induction false} CoreOfUnfed(m: Model, cfg: Config, s: Sys, items: seq<BatchItem>)
    requires Core(m, cfg, s, items, Unfed)
    ensures CoreOf(m, cfg, s)
  {
    hide CacheOk, AllFaithful, Places, Flight;
    forall i | i in s.active && !s.Get(i).Terminal()
      ensures s.Get(i).fed < |s.Get(i).Known()| && TableExact(s, i) {
      assert Settled(s, i);
    }
  }

  // -- one token for the lone request ------------------------------------------------------------------

  /** The only item there can be. */
  ghost predicate OneToken(items: seq<BatchItem>, g: nat) {
    |items| == 1 && items[0].id == 0 && items[0].start == g && items[0].End() == g + 1 && items[0].sample
  }

  lemma {:induction false} OnlyOneToken(m: Model, cfg: Config, t: Sys, items: seq<BatchItem>, g: nat)
    requires Core(m, cfg, t, items, Unfed) && items != [] && Inside(t, g, g)
    ensures OneToken(items, g)
  {
    hide CacheOk, Places, AllFaithful, Residents;
    forall k | 0 <= k < |items| ensures items[k].id == 0 {
      assert ItemInFlight(m, cfg, t, items[k], Unfed);
    }
    OneItem(items, 0);
    assert ItemInFlight(m, cfg, t, items[0], Unfed);
  }

  lemma {:induction false} TurnPlans(m: Model, cfg: Config, s0: Sys, events: seq<Event>, g: nat)
    requires Initial(m, s0) && OneEvent(cfg)
    requires var s := Run(m, cfg, s0, events);
      Alone(s, g) && s.reqs[0].pending == [] && s.reqs[0].stalled.None?
    ensures var s := Run(m, cfg, s0, events); var t := Step(m, cfg, s, EIterate(0));
      && Inside(t, g, g) && t.phase.Planned? && OneToken(t.phase.items, g)
      && t.reqs[0].queue == s.reqs[0].queue && t.reqs[0].pending == [] && t.reqs[0].stalled.None?
  {
    hide Run, Step, Inv, Core, Iterated, Initial, OneToken, CoreOf;
    var s := Run(m, cfg, s0, events);
    var t := Step(m, cfg, s, EIterate(0));
    RunInv(m, cfg, s0, events);
    StepInv(m, cfg, s, EIterate(0));
    PhaseParts(m, cfg, t);
    NotLanded(m, cfg, s, 0);
    CoreOfUnfed(m, cfg, t, if t.phase.Idle? then [] else t.phase.items);
    var k := IterateExactly(m, cfg, s, 0);
    LoneIterated(m, cfg, s, t, g, k);
    PlansExactly(m, cfg, s0, events, 0);
    assert 0 in t.active && Ready(t.Get(0));
    OnlyOneToken(m, cfg, t, t.phase.items, g);
  }

  lemma {:induction false} NotLanded(m: Model, cfg: Config, s: Sys, now: int)
    requires s.phase.Idle?
    ensures !Step(m, cfg, s, EIterate(now)).phase.Landed?
  {
    hide Reap, DrainStreams, AdmitWaiting, BuildPlan;
  }

  /** One block holds it all, so the forward completes. */
  lemma {:induction false} TurnLands(m: Model, cfg: Config, s0: Sys, events: seq<Event>, g: nat)
    requires Initial(m, s0) && OneEvent(cfg) && s0.cache.size == BLOCK && s0.cache.alloc.total == 1 && g <= 2
    requires var s := Run(m, cfg, s0, events);
      Inside(s, g, g) && s.phase.Planned? && OneToken(s.phase.items, g)
    ensures var s := Run(m, cfg, s0, events); var t := Step(m, cfg, s, EExecute);
      && t.phase.Landed? && t.phase.items == s.phase.items && t.phase.outcome.Ran? && 0 in t.phase.outcome.outputs
      && Inside(t, g, g + 1) && t.reqs[0].queue == s.reqs[0].queue
      && t.reqs[0].pending == s.reqs[0].pending && t.reqs[0].stalled == s.reqs[0].stalled
  {
    hide Run, Inv, Core, Initial, Execute, FedAll, Land, BlocksFor;
    var s := Run(m, cfg, s0, events);
    var items := s.phase.items;
    RunInv(m, cfg, s0, events);
    InitialInv(m, cfg, s0);
    ShapeOverRuns(m, cfg, s0, events);
    OneBlockAhead(s, items, g);
    FullForwardExactly(m, cfg, s);
    NoCrashOverRuns(m, cfg, s0, events);
    ForwardedExactly(m, cfg, s, []);
    StepInv(m, cfg, s, EExecute);
    hide Step;
    SampledOne(m, cfg, Step(m, cfg, s, EExecute), g);
    FedTheOne(s, Step(m, cfg, s, EExecute), items, g);
  }

  lemma {:induction false} FedTheOne(s: Sys, t: Sys, items: seq<BatchItem>, g: nat)
    requires Inside(s, g, g) && OneToken(items, g) && Forwarded(s, t, items, true)
    ensures Inside(t, g, g + 1) && t.reqs[0].queue == s.reqs[0].queue
    ensures t.reqs[0].pending == s.reqs[0].pending && t.reqs[0].stalled == s.reqs[0].stalled
  {
  }

  lemma {:induction false} OneBlockAhead(s: Sys, items: seq<BatchItem>, g: nat)
    requires s.active == [0] && OneToken(items, g) && s.cache.size == BLOCK && g <= 2
    ensures BlocksAhead(s, items, s.active) == 1
  {
    assert [0][..0] == [];
    assert BlocksFor(BLOCK, g + 1) == 1;
  }

  lemma {:induction false} SampledOne(m: Model, cfg: Config, t: Sys, g: nat)
    requires Inv(m, cfg, t) && t.phase.Landed? && t.phase.outcome.Ran? && OneToken(t.phase.items, g)
    ensures 0 in t.phase.outcome.outputs
  {
    hide CacheOk, Places, AllFaithful, Residents;
    assert ItemInFlight(m, cfg, t, t.phase.items[0], Fed(t.phase.outcome.outputs));
  }

  /** The token goes on the queue, or behind it. */
  lemma {:induction false} TurnServes(m: Model, cfg: Config, s: Sys, g: nat)
    requires Inv(m, cfg, s) && OneEvent(cfg) && g < 2 && s.phase.Landed? && s.phase.outcome.Ran?
    requires Inside(s, g, g + 1) && OneToken(s.phase.items, g) && |s.reqs[0].queue| == g
    requires s.reqs[0].pending == [] && s.reqs[0].stalled.None?
    ensures var t := Step(m, cfg, s, EPost(0));
      && Alone(t, g + 1) && t.active == [0] && |t.reqs[0].queue| == 1
      && (g == 0 ==> t.reqs[0].pending == [] && t.reqs[0].stalled.None?)
      && (g == 1 ==> |t.reqs[0].pending| == 1 && t.reqs[0].stalled == Some(0) && t.reqs[0].state.Decoding?)
  {
    hide Inv, Step;
    ServedExactly(m, cfg, s, 0);
    var items, t := s.phase.items, Step(m, cfg, s, EPost(0));
    ServedOne(cfg, s, t, items, s.phase.outcome.outputs, g);
  }

  lemma {:induction false} ServedOne(cfg: Config, s: Sys, t: Sys, items: seq<BatchItem>, outputs: map<nat, Token>,
                                     g: nat)
    requires Served(cfg, s, t, items, outputs, 0) && OneEvent(cfg) && g < 2
    requires Inside(s, g, g + 1) && OneToken(items, g) && |s.reqs[0].queue| == g
    requires s.reqs[0].pending == [] && s.reqs[0].stalled.None?
    ensures Alone(t, g + 1) && t.active == [0] && |t.reqs[0].queue| == 1
    ensures g == 0 ==> t.reqs[0].pending == [] && t.reqs[0].stalled.None?
    ensures g == 1 ==> |t.reqs[0].pending| == 1 && t.reqs[0].stalled == Some(0) && t.reqs[0].state.Decoding?
  {
    hide ItemDone, Finishes, Alone, Without;
    ServedList(s, items, outputs);
    assert ItemDone(cfg, items[0], outputs, s.reqs[0], t.reqs[0], 0);
    ServedRecord(cfg, items[0], outputs, s.reqs[0], t.reqs[0], g);
    ServedAlone(s, t, g);
  }

  lemma {:induction false} ServedAlone(s: Sys, t: Sys, g: nat)
    requires Inside(s, g, g + 1) && t.phase.Idle? && |t.reqs| == 1 && t.waiting == s.waiting
    requires t.active == Without(s.active, []) && OneReq(t.reqs[0], g + 1)
    ensures Alone(t, g + 1) && t.active == [0]
  {
    WithoutDisjoint(s.active, []);
  }

  /** Nobody ends. */
  lemma {:induction false} ServedList(s: Sys, items: seq<BatchItem>, outputs: map<nat, Token>)
    requires |s.reqs| == 1 && |items| == 1 && items[0].id == 0 && !s.reqs[0].Terminal()
    requires s.reqs[0].eos.None? && |s.reqs[0].generated| + 1 < s.reqs[0].maxOut
    ensures Finishers(s, items, outputs) == []
  {
    assert items[1..] == [];
  }

  lemma {:induction false} ServedRecord(cfg: Config, item: BatchItem, outputs: map<nat, Token>, r: Req, r': Req, g: nat)
    requires ItemDone(cfg, item, outputs, r, r', 0) && cfg.streamCapacity == 1 && g < 2 && item.sample && item.id == 0
    requires OneReq(r.(fed := g), g) && r.fed == g + 1 && |r.queue| == g && r.pending == [] && r.stalled.None?
    ensures OneReq(r', g + 1) && |r'.queue| == 1
    ensures g == 0 ==> r'.pending == [] && r'.stalled.None?
    ensures g == 1 ==> |r'.pending| == 1 && r'.stalled == Some(0) && r'.state.Decoding?
  {
    hide Flushed;
    var w :| TokenAdded(cfg, r, Again(r, item), outputs[0], w, r', 0);
    assert !FinalToken(r, outputs[0]);
    OneEventFlushed(r, StreamEvent(Some(outputs[0]), false), w, g);
  }

  lemma {:induction false} OneEventFlushed(r: Req, e: StreamEvent, w: Req, g: nat)
    requires Flushed(r, [e], w, 1, 0) && r.pending == [] && r.stalled.None? && |r.queue| == g < 2
    ensures g == 0 ==> |w.queue| == 1 && w.pending == [] && w.stalled.None?
    ensures g == 1 ==> |w.queue| == 1 && |w.pending| == 1 && w.stalled == Some(0)
  {
    var k: nat :| FlushedUpTo(r, [e], w, 1, 0, k);
    assert [] + [e] == [e];
  }

  // -- a second request finds the cache full -----------------------------------------------------------

  /** A record with one event on its queue of one and one behind it. */
  predicate Behind(r: Req) {
    |r.queue| == 1 && |r.pending| == 1 && r.stalled == Some(0)
  }

  function Fresh(): Req {
    Req([1], 3, None, 0, Waiting, [], 0, [], [], None, [], false, 0, 0, 0, 0, 0, 0)
  }

  /** The first request resident, two tokens said and fed, its client behind; the second with it, nothing fed. */
  ghost predicate Crowded(s: Sys) {
    && |s.reqs| == 2 && s.waiting == [] && s.active == [0, 1]
    && OneReq(s.reqs[0], 2) && Behind(s.reqs[0])
    && s.reqs[1] == Fresh().(state := Prefill)
  }

  lemma {:induction false} JoinedIterated(m: Model, cfg: Config, s: Sys, t: Sys, k: nat)
    requires OneEvent(cfg) && s.phase.Idle? && |s.reqs| == 2 && s.waiting == [1] && s.active == [0]
    requires OneReq(s.reqs[0], 2) && Behind(s.reqs[0]) && s.reqs[1] == Fresh()
    requires Iterated(cfg, s, t, 0, k) && CoreOf(m, cfg, t)
    ensures Crowded(t)
  {
    hide EndsAs, Flushed, Without;
    NoneReaped(cfg, s);
    assert k == 1;
    assert t.active == [0] + [1][..1] && t.waiting == [1][1..];
    assert IteratedRecord(cfg, s, t, 0, 0) && IteratedRecord(cfg, s, t, 1, 0);
    NothingMoves(s.reqs[0], t.reqs[0]);
    assert 1 in t.active && t.Get(1).fed < |t.Get(1).Known()|;
  }

  lemma {:induction false} NothingMoves(r: Req, r': Req)
    requires Flushed(r, [], r', 1, 0) && Behind(r)
    ensures r'.queue == r.queue && r'.pending == r.pending && r'.stalled == r.stalled
  {
    var k: nat :| FlushedUpTo(r, [], r', 1, 0, k);
    assert r.pending + [] == r.pending;
  }

  lemma {:induction false} CrowdPlanned(m: Model, cfg: Config, s0: Sys, events: seq<Event>)
    requires Initial(m, s0) && OneEvent(cfg)
    requires var s := Run(m, cfg, s0, events);
      && s.phase.Idle? && |s.reqs| == 2 && s.waiting == [1] && s.active == [0]
      && OneReq(s.reqs[0], 2) && Behind(s.reqs[0]) && s.reqs[1] == Fresh()
    ensures var t := Step(m, cfg, Run(m, cfg, s0, events), EIterate(0));
      Crowded(t) && t.phase.Planned? && |t.phase.items| == 1 && t.phase.items[0].id == 1 && t.phase.items[0].End() >= 1
  {
    hide Run, Step, Inv, Core, Iterated, Initial, CoreOf;
    var s := Run(m, cfg, s0, events);
    var t := Step(m, cfg, s, EIterate(0));
    RunInv(m, cfg, s0, events);
    StepInv(m, cfg, s, EIterate(0));
    PhaseParts(m, cfg, t);
    NotLanded(m, cfg, s, 0);
    CoreOfUnfed(m, cfg, t, if t.phase.Idle? then [] else t.phase.items);
    var k := IterateExactly(m, cfg, s, 0);
    JoinedIterated(m, cfg, s, t, k);
    PlansExactly(m, cfg, s0, events, 0);
    assert 1 in t.active && Ready(t.Get(1));
    RunOne(m, cfg, s0, events, EIterate(0));
    PlannedDelivered(m, cfg, s0, events + [EIterate(0)]);
    OnlyTheSecond(m, cfg, t, t.phase.items);
  }

  lemma {:induction false} OnlyTheSecond(m: Model, cfg: Config, t: Sys, items: seq<BatchItem>)
    requires Core(m, cfg, t, items, Unfed) && items != [] && Crowded(t)
    requires StreamsOk(cfg, Point(t, items, Unfed))
    ensures |items| == 1 && items[0].id == 1 && items[0].End() >= 1
  {
    hide CacheOk, Places, AllFaithful, Residents, StreamOk;
    forall k | 0 <= k < |items| ensures items[k].id == 1 {
      assert ItemInFlight(m, cfg, t, items[k], Unfed);
    }
    OneItem(items, 1);
    assert ItemInFlight(m, cfg, t, items[0], Unfed);
  }

  lemma {:induction false} CrowdFull(m: Model, cfg: Config, s: Sys)
    requires Inv(m, cfg, s) && Crowded(s) && s.phase.Planned? && s.cache.size == BLOCK && s.cache.alloc.total == 1
    requires |s.phase.items| == 1 && s.phase.items[0].id == 1 && s.phase.items[0].End() >= 1
    ensures var t := Step(m, cfg, s, EExecute);
      Crowded(t) && t.phase.Landed? && t.phase.outcome.CapacityError?
  {
    hide Inv, Step, BlocksFor;
    TwoBlocksAhead(s, s.phase.items);
    FullForwardExactly(m, cfg, s);
    ForwardedExactly(m, cfg, s, []);
  }

  lemma {:induction false} TwoBlocksAhead(s: Sys, items: seq<BatchItem>)
    requires s.active == [0, 1] && s.Get(0).fed == 2 && s.cache.size == BLOCK
    requires |items| == 1 && items[0].id == 1 && items[0].End() >= 1
    ensures BlocksAhead(s, items, s.active) >= 2
  {
    assert [0, 1][..1] == [0] && [0][..0] == [];
    BlocksForMonotone(BLOCK, 1, items[0].End());
    assert BlocksFor(BLOCK, 1) == 1 && BlocksFor(BLOCK, 2) == 1;
    assert EndOf(items, 0, 2) == EndOf(items[..0], 0, 2) == 2;
  }

  // -- the first one is preempted, the second leaves, the client reads ------------------------------------

  /** The first request waits, preempted; its client has left `queued` events on the queue. */
  ghost predicate Requeued(s: Sys, active: seq<nat>, queued: nat) {
    && s.phase.Idle? && |s.reqs| == 2 && s.waiting == [0] && s.active == active
    && AtZero(s.reqs[0]) && s.reqs[0].preemptions == 1 && s.reqs[0].stalled == Some(0)
    && |s.reqs[0].queue| == queued && |s.reqs[0].pending| == 1
    && (active != [] ==> !s.reqs[1].Terminal())
  }

  lemma {:induction false} FirstPreempted(m: Model, cfg: Config, s: Sys)
    requires Inv(m, cfg, s) && OneEvent(cfg) && Crowded(s) && s.cache.size == BLOCK
    requires s.phase.Landed? && s.phase.outcome.CapacityError?
    ensures Requeued(Step(m, cfg, s, EPost(0)), [1], 1)
  {
    hide Inv, Step, Without, Requeued;
    FirstLarger(m, cfg, s);
    assert 0 in s.active && 1 in s.active && !s.Get(0).Terminal() && !s.Get(1).Terminal();
    assert TwoUnfinished(s);
    var v := PreemptedExactly(m, cfg, s, 0);
    assert NoLarger(Seen(s, 0), Seen(s, v));
    assert v == 0;
    hide FirstHighest, LargestOf, TwoUnfinished;
    FirstRequeued(s, Step(m, cfg, s, EPost(0)));
  }

  lemma {:induction false} FirstRequeued(s: Sys, t: Sys)
    requires Crowded(s) && t.phase.Idle? && t.active == Without(s.active, [0]) && t.waiting == s.waiting + [0]
    requires t.reqs == s.reqs[0 := s.reqs[0].(state := Waiting, fed := 0, preemptions := s.reqs[0].preemptions + 1,
                                              recomputeUntil := s.reqs[0].fed)]
    ensures Requeued(t, [1], 1)
  {
    WithoutOfTwo();
  }

  lemma {:induction false} WithoutOfTwo()
    ensures Without([0, 1], [0]) == [1 as nat]
  {
    assert [0, 1][..1] == [0] && [0][..0] == [];
    assert Without([0], [0]) == [];
  }

  lemma {:induction false} FirstLarger(m: Model, cfg: Config, s: Sys)
    requires Inv(m, cfg, s) && Crowded(s) && s.cache.size == BLOCK
    requires s.phase.Landed? && s.phase.outcome.CapacityError?
    ensures Seen(s, 0).allocatedTokens > Seen(s, 1).allocatedTokens
  {
    hide CacheOk, Places, AllFaithful, Flight;
    assert Core(m, cfg, s, s.phase.items, Unfed);
    CoreOfUnfed(m, cfg, s, s.phase.items);
    assert TableExact(s, 0) && TableExact(s, 1);
    assert BlocksFor(BLOCK, 2) == 1 && BlocksFor(BLOCK, 0) == 0;
  }

  lemma {:induction false} SecondLeaves(m: Model, cfg: Config, s: Sys)
    requires Inv(m, cfg, s) && Requeued(s, [1], 1)
    ensures Requeued(Step(m, cfg, s, ECancel(1, 0)), [], 1)
  {
    hide Inv, Step, EndsAs;
    CancelExactly(m, cfg, s, 1, 0);
    assert [1][..0] == [] && [0][..0] == [];
    assert Without([1], [1]) == [] && Without([0], [1]) == [0];
  }

  lemma {:induction false} ClientReads(m: Model, cfg: Config, s: Sys)
    requires Requeued(s, [], 1)
    ensures Requeued(Step(m, cfg, s, EConsume(0)), [], 0)
  {
    hide Step;
    ConsumeExactly(m, cfg, s, 0);
  }

  lemma {:induction false} BackAgain(m: Model, cfg: Config, s: Sys)
    requires Inv(m, cfg, s) && OneEvent(cfg) && Requeued(s, [], 0)
    ensures var t := Step(m, cfg, s, EIterate(0));
      t.active == [0] && |t.reqs| == 2 && t.reqs[0].queue == [] && |t.reqs[0].pending| == 1
  {
    hide Inv, Step, EndsAs, DrainRule, Without;
    var k := IterateExactly(m, cfg, s, 0);
    var t := Step(m, cfg, s, EIterate(0));
    NoneReaped(cfg, s);
    assert k == 1;
    assert IteratedRecord(cfg, s, t, 0, 0);
  }

  // -- the run ----------------------------------------------------------------------------------------------

  function UntilCrowded(): seq<Event> {
    [Ask()] + Round() + Round() + [Ask()]
  }

  function UntilReadmitted(): seq<Event> {
    UntilCrowded() + Round() + [ECancel(1, 0)] + [EConsume(0)] + [EIterate(0)]
  }

  /** Two turns of the lone request leave its client one event behind. */
  lemma {:induction false} LoneTurn(m: Model, cfg: Config, s0: Sys, events: seq<Event>, g: nat)
    requires Initial(m, s0) && OneEvent(cfg) && s0.cache.size == BLOCK && s0.cache.alloc.total == 1 && g < 2
    requires var s := Run(m, cfg, s0, events);
      Alone(s, g) && |s.reqs[0].queue| == g && s.reqs[0].pending == [] && s.reqs[0].stalled.None?
    ensures var t := Run(m, cfg, s0, events + Round());
      && Alone(t, g + 1) && t.active == [0] && |t.reqs[0].queue| == 1
      && (g == 0 ==> t.reqs[0].pending == [] && t.reqs[0].stalled.None?)
      && (g == 1 ==> |t.reqs[0].pending| == 1 && t.reqs[0].stalled == Some(0))
  {
    hide Run, Step, Initial, Inv, OneToken, Inside, Alone;
    TurnPlans(m, cfg, s0, events, g);
    RunOne(m, cfg, s0, events, EIterate(0));
    TurnLands(m, cfg, s0, events + [EIterate(0)], g);
    RunOne(m, cfg, s0, events + [EIterate(0)], EExecute);
    RunInv(m, cfg, s0, events + [EIterate(0)] + [EExecute]);
    TurnServes(m, cfg, Run(m, cfg, s0, events + [EIterate(0)] + [EExecute]), g);
    RunRound(m, cfg, s0, events);
  }

  lemma {:induction false} Asked(m: Model, cfg: Config, s: Sys)
    requires OneEvent(cfg) && s.waiting == []
    ensures Step(m, cfg, s, Ask()) == s.(waiting := [|s.reqs|], reqs := s.reqs + [Fresh()])
  {
    hide Step;
    SubmitExactly(m, cfg, s, [1], 3, None, 0);
    assert s.waiting + [|s.reqs|] == [|s.reqs|];
  }

  lemma {:induction false} CrowdedAfter(m: Model, cfg: Config, s0: Sys)
    requires Initial(m, s0) && OneEvent(cfg) && s0.cache.size == BLOCK && s0.cache.alloc.total == 1
    ensures var s := Run(m, cfg, s0, UntilCrowded());
      && s.phase.Idle? && |s.reqs| == 2 && s.waiting == [1] && s.active == [0]
      && OneReq(s.reqs[0], 2) && Behind(s.reqs[0]) && s.reqs[1] == Fresh()
  {
    hide Step, Inv, Run;
    EmptyRun(m, cfg, s0);
    RunOne(m, cfg, s0, [], Ask());
    Asked(m, cfg, s0);
    assert [] + [Ask()] == [Ask()];
    LoneTurn(m, cfg, s0, [Ask()], 0);
    LoneTurn(m, cfg, s0, [Ask()] + Round(), 1);
    var s := Run(m, cfg, s0, [Ask()] + Round() + Round());
    Asked(m, cfg, s);
    RunOne(m, cfg, s0, [Ask()] + Round() + Round(), Ask());
  }

  lemma {:induction false} PreemptedAfter(m: Model, cfg: Config, s0: Sys)
    requires Initial(m, s0) && OneEvent(cfg) && s0.cache.size == BLOCK && s0.cache.alloc.total == 1
    ensures Requeued(Run(m, cfg, s0, UntilCrowded() + Round()), [1], 1)
  {
    hide Step, Inv, Run, Initial, Crowded;
    var events := UntilCrowded();
    CrowdedAfter(m, cfg, s0);
    CrowdPlanned(m, cfg, s0, events);
    RunOne(m, cfg, s0, events, EIterate(0));
    RunInv(m, cfg, s0, events + [EIterate(0)]);
    SizeAfter(m, cfg, s0, events + [EIterate(0)]);
    CrowdFull(m, cfg, Run(m, cfg, s0, events + [EIterate(0)]));
    RunOne(m, cfg, s0, events + [EIterate(0)], EExecute);
    RunInv(m, cfg, s0, events + [EIterate(0)] + [EExecute]);
    SizeAfter(m, cfg, s0, events + [EIterate(0)] + [EExecute]);
    FirstPreempted(m, cfg, Run(m, cfg, s0, events + [EIterate(0)] + [EExecute]));
    RunRound(m, cfg, s0, events);
  }

  lemma {:induction false} SizeAfter(m: Model, cfg: Config, s0: Sys, events: seq<Event>)
    requires Initial(m, s0)
    ensures Run(m, cfg, s0, events).cache.size == s0.cache.size
    ensures Run(m, cfg, s0, events).cache.alloc.total == s0.cache.alloc.total
  {
    hide Run;
    InitialInv(m, cfg, s0);
    ShapeOverRuns(m, cfg, s0, events);
  }

  /**
   * With any model and a stream queue of one event, in one block of cache: a run of fourteen events after which an
   * iteration has readmitted the first request, whose queue is empty while an event of it is still pending.
   */
  lemma {:induction false} ReadmittedUndrained(m: Model, cfg: Config)
    requires OneEvent(cfg)
    ensures Initial(m, Started(m.layers, 1))
    ensures cfg.maxModelLen <= 4096 ==> Startable(cfg, Started(m.layers, 1))
    ensures var s := Run(m, cfg, Started(m.layers, 1), UntilReadmitted());
      && 0 in s.active && |s.reqs| == 2 && s.reqs[0].queue == [] && |s.reqs[0].pending| == 1
      && !DeliveredAll(cfg, s.reqs[0])
  {
    hide Step, Inv, Run, Initial, Requeued, Started, Startable;
    var s0, before := Started(m.layers, 1), UntilCrowded() + Round();
    StartedShows(m, cfg, 1);
    PreemptedAfter(m, cfg, s0);
    RunInv(m, cfg, s0, before);
    SecondLeaves(m, cfg, Run(m, cfg, s0, before));
    RunOne(m, cfg, s0, before, ECancel(1, 0));
    ClientReads(m, cfg, Run(m, cfg, s0, before + [ECancel(1, 0)]));
    RunOne(m, cfg, s0, before + [ECancel(1, 0)], EConsume(0));
    RunInv(m, cfg, s0, before + [ECancel(1, 0)] + [EConsume(0)]);
    BackAgain(m, cfg, Run(m, cfg, s0, before + [ECancel(1, 0)] + [EConsume(0)]));
    RunOne(m, cfg, s0, before + [ECancel(1, 0)] + [EConsume(0)], EIterate(0));
  }
}
