/** Every step keeps the invariant, so every run does; token parity follows. */
module SchedulerRun {
  import opened Lists
  import opened Allocator
  import opened Transformer
  import opened KvCache
  import opened KvCacheValid
  import opened KvCacheContent
  import opened Packing
  import opened Runner
  import opened Scheduling
  import opened SchedulerCore
  import opened SchedulerPlan

  function ModeOf(outcome: Outcome): Mode {
    match outcome
    case Ran(outputs) => Fed(outputs)
    case CapacityError => Unfed
    case Crashed => Broken
  }

  /** The invariant of whole states: `Core`, relative to what is in flight. */
  ghost predicate Inv(m: Model, cfg: Config, s: Sys) {
    match s.phase
    case Idle => Core(m, cfg, s, [], Unfed)
    case Planned(items) =>
      && Core(m, cfg, s, items, Unfed) && items != [] && (GraphSafe(cfg) ==> RowsSafe(cfg.graph, items))
      && (GraphComplete(cfg) ==> !Raises(cfg.graph, items))
    case Landed(items, outcome) => Core(m, cfg, s, items, ModeOf(outcome)) && items != []
  }

  lemma {:induction false} PhaseCore(m: Model, cfg: Config, s: Sys, items: seq<BatchItem>, mode: Mode, phase: Phase,
                                     metrics: Metrics)
    requires Core(m, cfg, s, items, mode)
    ensures Core(m, cfg, s.(phase := phase, metrics := metrics), items, mode)
  {
    hide OneReturned, Flight, Residents, Cache.Valid, Agrees;
    var s' := s.(phase := phase, metrics := metrics);
    HistSame(s, s');
    StillOneReturned(s, s');
    PhaseFlight(m, cfg, s, s', items, mode);
  }

  lemma {:induction false} PhaseFlight(m: Model, cfg: Config, s: Sys, s': Sys, items: seq<BatchItem>, mode: Mode)
    requires Flight(m, cfg, s, items, mode) && Residents(s, items, mode)
    requires s'.reqs == s.reqs && s'.active == s.active && s'.cache == s.cache
    ensures Flight(m, cfg, s', items, mode) && Residents(s', items, mode)
  {
    forall k | 0 <= k < |items| ensures ItemInFlight(m, cfg, s', items[k], mode) {
      assert ItemInFlight(m, cfg, s, items[k], mode);
    }
    forall j | j in s'.active ensures LengthOk(s', j) && (j !in ItemIds(items) || mode.Unfed? ==> Settled(s', j)) {
      assert LengthOk(s, j);
    }
  }

  // -- planning ------------------------------------------------------------------------------

  lemma {:induction false} PlannedCore(m: Model, cfg: Config, s: Sys)
    requires Core(m, cfg, s, [], Unfed)
    ensures Core(m, cfg, s, BuildPlan(cfg, s), Unfed)
  {
    PlanGuarantees(cfg, s);
    var items := BuildPlan(cfg, s);
    forall k | 0 <= k < |items| ensures ItemInFlight(m, cfg, s, items[k], Unfed) {
      assert NextSlice(s, items[k]);
    }
    forall j | j in s.active ensures LengthOk(s, j) && Settled(s, j) {
    }
  }

  lemma {:induction false} BeforePlanCore(m: Model, cfg: Config, s: Sys, now: int)
    requires Core(m, cfg, s, [], Unfed) && s.phase.Idle?
    ensures var reaped := Reap(cfg, s, now);
      Core(m, cfg, AdmitWaiting(cfg, DrainStreams(cfg, reaped, reaped.active, now), now), [], Unfed)
  {
    ReapWaitingCore(m, cfg, s, s.waiting, now);
    var a := ReapWaiting(cfg, s, s.waiting, now);
    ReapActiveCore(m, cfg, a, a.active, now);
    var b := ReapActive(cfg, a, a.active, now);
    DrainStreamsCore(m, cfg, b, b.active, now);
    AdmitWaitingCore(m, cfg, DrainStreams(cfg, b, b.active, now), now);
  }

  lemma {:induction false} IterateInv(m: Model, cfg: Config, s: Sys, now: int)
    requires Core(m, cfg, s, [], Unfed) && s.phase.Idle?
    ensures Inv(m, cfg, Iterate(cfg, s, now))
  {
    hide Reap, DrainStreams, AdmitWaiting, BuildPlan, Core;
    BeforePlanCore(m, cfg, s, now);
    var reaped := Reap(cfg, s, now);
    var d := AdmitWaiting(cfg, DrainStreams(cfg, reaped, reaped.active, now), now);
    PlannedCore(m, cfg, d);
    if GraphSafe(cfg) {
      PlanRowsSafe(m, cfg, d);
    }
    if GraphComplete(cfg) {
      PlanTaken(m, cfg, d);
    }
    var items := BuildPlan(cfg, d);
    PhaseCore(m, cfg, d, items, Unfed, if items == [] then Idle else Planned(items), d.metrics);
  }

  // -- execution ------------------------------------------------------------------------------

  lemma {:induction false} FlightPlan(m: Model, cfg: Config, s: Sys, items: seq<BatchItem>)
    requires Core(m, cfg, s, items, Unfed)
    ensures PlanFor(s.cache, Hist(s), items)
  {
    forall k | 0 <= k < |items| ensures PlanItem(s.cache, Hist(s), items[k]) {
      assert ItemInFlight(m, cfg, s, items[k], Unfed);
      assert LengthOk(s, items[k].id);
    }
  }

  /** The records after feeding: each item's request has moved to its end, nobody else has. */
  ghost predicate FedRecords(s: Sys, s': Sys, items: seq<BatchItem>) {
    && s' == s.(reqs := s'.reqs) && |s'.reqs| == |s.reqs|
    && (forall j :: 0 <= j < |s.reqs| && j !in ItemIds(items) ==> s'.reqs[j] == s.reqs[j])
    && (forall k :: 0 <= k < |items| ==>
          && items[k].id < |s.reqs|
          && s'.reqs[items[k].id] == s.reqs[items[k].id].(fed := items[k].End(),
               executed := s.reqs[items[k].id].executed + |items[k].tokens|))
  }

  lemma {:induction false} FedOne(s: Sys, mid: Sys, init: seq<BatchItem>, item: BatchItem)
    requires FedRecords(s, mid, init) && item.id !in ItemIds(init) && item.id < |s.reqs|
    ensures var r := mid.Get(item.id);
      FedRecords(s, mid.Set(item.id, r.(fed := item.End(), executed := r.executed + |item.tokens|)), init + [item])
  {
    assert ItemIds(init + [item]) == ItemIds(init) + [item.id];
    assert forall k :: 0 <= k < |init| ==> ItemIds(init)[k] == init[k].id;
  }

  lemma {:induction false} FedAllFacts(s: Sys, items: seq<BatchItem>)
    requires NoDup(ItemIds(items)) && forall k :: 0 <= k < |items| ==> items[k].id < |s.reqs|
    ensures FedRecords(s, FedAll(s, items), items)
  {
    if items != [] {
      var n := |items| - 1;
      assert items == items[..n] + [items[n]];
      assert ItemIds(items) == ItemIds(items[..n]) + [items[n].id];
      NoDupConcat(ItemIds(items[..n]), [items[n].id]);
      FedAllFacts(s, items[..n]);
      FedOne(s, FedAll(s, items[..n]), items[..n], items[n]);
    }
  }

  lemma {:induction false} FedPlaces(cfg: Config, s: Sys, s': Sys, items: seq<BatchItem>, cache: Cache)
    requires Places(cfg, s) && FedRecords(s, s', items)
    requires forall k :: 0 <= k < |items| ==> items[k].id in s.active
    requires forall r :: r in cache.tables <==> r in s.cache.tables
    ensures Places(cfg, s'.(cache := cache))
  {
    hide OneReturned;
    forall j | 0 <= j < |s.reqs|
      ensures s'.reqs[j].state == s.reqs[j].state && s'.reqs[j].finalized == s.reqs[j].finalized
      ensures s'.reqs[j].preemptions == s.reqs[j].preemptions
      ensures j in s.waiting ==> s'.reqs[j] == s.reqs[j] {
      if j in ItemIds(items) {
        var k :| 0 <= k < |items| && items[k].id == j;
      }
    }
    StillOneReturned(s, s'.(cache := cache));
  }

  lemma {:induction false} FedWords(m: Model, cfg: Config, s: Sys, s': Sys, items: seq<BatchItem>)
    requires FedRecords(s, s', items) && AllFaithful(m, cfg, s)
    ensures AllFaithful(m, cfg, s') && Hist(s') == Hist(s)
    ensures forall j :: 0 <= j < |s.reqs| ==>
      s'.reqs[j].Known() == s.reqs[j].Known() && s'.reqs[j].state == s.reqs[j].state
  {
    forall j | 0 <= j < |s.reqs|
      ensures Faithful(m, cfg, s'.reqs[j]) && s'.reqs[j].Known() == s.reqs[j].Known()
      ensures s'.reqs[j].state == s.reqs[j].state {
      assert Faithful(m, cfg, s.reqs[j]);
      if j in ItemIds(items) {
        var k :| 0 <= k < |items| && items[k].id == j;
      }
    }
  }

  /** A completed forward: every item's request has its new length, table and token. */
  lemma {:induction false} RanResidents(m: Model, cfg: Config, s: Sys, s': Sys, items: seq<BatchItem>, cache: Cache,
                                        outputs: map<nat, Token>)
    requires Core(m, cfg, s, items, Unfed) && FedRecords(s, s', items)
    requires CompletedCall(m, s.cache, cache, Hist(s), items, outputs)
    ensures Residents(s'.(cache := cache), items, Fed(outputs))
  {
    forall j | j in s.active
      ensures LengthOk(s'.(cache := cache), j) && (j !in ItemIds(items) ==> Settled(s'.(cache := cache), j)) {
      RanResident(m, cfg, s, s', items, cache, outputs, j);
    }
  }

  lemma {:induction false} RanResident(m: Model, cfg: Config, s: Sys, s': Sys, items: seq<BatchItem>, cache: Cache,
                    outputs: map<nat, Token>, j: nat)
    requires Core(m, cfg, s, items, Unfed) && FedRecords(s, s', items) && j in s.active
    requires CompletedCall(m, s.cache, cache, Hist(s), items, outputs)
    ensures LengthOk(s'.(cache := cache), j) && (j !in ItemIds(items) ==> Settled(s'.(cache := cache), j))
  {
    hide Cache.Valid, Agrees, AllFaithful, NamesSampled;
    assert LengthOk(s, j) && Settled(s, j);
    if j in ItemIds(items) {
      var k :| 0 <= k < |items| && items[k].id == j;
      assert ItemInFlight(m, cfg, s, items[k], Unfed);
    }
  }

  lemma {:induction false} RanFlight(m: Model, cfg: Config, s: Sys, s': Sys, items: seq<BatchItem>, cache: Cache,
                                     outputs: map<nat, Token>)
    requires Core(m, cfg, s, items, Unfed) && FedRecords(s, s', items)
    requires CompletedCall(m, s.cache, cache, Hist(s), items, outputs)
    requires GraphSafe(cfg) ==> RightOutputs(m, Hist(s), items, outputs)
    ensures Flight(m, cfg, s'.(cache := cache), items, Fed(outputs))
  {
    forall k | 0 <= k < |items| ensures ItemInFlight(m, cfg, s'.(cache := cache), items[k], Fed(outputs)) {
      RanItem(m, cfg, s, s', items, cache, outputs, k);
    }
  }

  lemma {:induction false} RanItem(m: Model, cfg: Config, s: Sys, s': Sys, items: seq<BatchItem>, cache: Cache,
                outputs: map<nat, Token>, k: nat)
    requires Core(m, cfg, s, items, Unfed) && FedRecords(s, s', items) && k < |items|
    requires CompletedCall(m, s.cache, cache, Hist(s), items, outputs)
    requires GraphSafe(cfg) ==> RightOutputs(m, Hist(s), items, outputs)
    ensures ItemInFlight(m, cfg, s'.(cache := cache), items[k], Fed(outputs))
  {
    hide Cache.Valid, Agrees, Places, AllFaithful;
    var item := items[k];
    assert ItemInFlight(m, cfg, s, item, Unfed) && LengthOk(s, item.id) && Settled(s, item.id);
    BlocksForMonotone(s.cache.size, item.start, item.End());
    assert Hist(s)[item.id] == s.reqs[item.id].Known();
    FedItem(m, cfg, s, s', item, cache, outputs);
  }

  /** What the completed call says of one item, spelled out. */
  lemma {:induction false} FedItem(m: Model, cfg: Config, s: Sys, s': Sys, item: BatchItem, cache: Cache,
                                   outputs: map<nat, Token>)
    requires item.id in s.active && item.id < |s.reqs| && |s'.reqs| == |s.reqs| && s'.active == s.active
    requires s'.phase == s.phase
    requires ItemMatches(s, item)
    requires s'.reqs[item.id].Known() == s.reqs[item.id].Known() && s'.reqs[item.id].fed == item.End()
    requires item.id in cache.tables && |cache.tables[item.id]| == BlocksFor(cache.size, item.End())
    requires item.sample ==> item.id in outputs && item.End() > 0
    requires item.sample && GraphSafe(cfg) ==> outputs[item.id] == Next(m, s.reqs[item.id].Known()[..item.End()])
    requires s'.reqs[item.id].state.Decoding? ==> item.sample
    ensures ItemInFlight(m, cfg, s'.(cache := cache), item, Fed(outputs))
  {
    var known := s.reqs[item.id].Known();
    assert known[..|known|] == known;
  }

  lemma {:induction false} RanCore(m: Model, cfg: Config, s: Sys, items: seq<BatchItem>, cache: Cache,
                                   outputs: map<nat, Token>)
    requires Core(m, cfg, s, items, Unfed) && CompletedCall(m, s.cache, cache, Hist(s), items, outputs)
    requires GraphSafe(cfg) ==> RightOutputs(m, Hist(s), items, outputs)
    ensures Core(m, cfg, FedAll(s, items).(cache := cache), items, Fed(outputs))
  {
    forall k | 0 <= k < |items| ensures items[k].id < |s.reqs| && items[k].id in s.active {
      assert ItemInFlight(m, cfg, s, items[k], Unfed);
    }
    FedAllFacts(s, items);
    var s' := FedAll(s, items);
    FedPlaces(cfg, s, s', items, cache);
    FedWords(m, cfg, s, s', items);
    RanResidents(m, cfg, s, s', items, cache, outputs);
    RanFlight(m, cfg, s, s', items, cache, outputs);
    HistSame(s', s'.(cache := cache));
  }

  /** Whatever happened to a plan, it may be treated as failed. */
  lemma {:induction false} BreakCore(m: Model, cfg: Config, s: Sys, items: seq<BatchItem>, mode: Mode)
    requires Core(m, cfg, s, items, mode)
    ensures Core(m, cfg, s, items, Broken)
  {
    forall k | 0 <= k < |items| ensures ItemInFlight(m, cfg, s, items[k], Broken) {
      assert ItemInFlight(m, cfg, s, items[k], mode);
    }
  }

  /** A call that changed nothing a request can see. */
  lemma {:induction false} SameRequestsCore(m: Model, cfg: Config, s: Sys, items: seq<BatchItem>, cache: Cache)
    requires Core(m, cfg, s, items, Unfed) && SameRequests(s.cache, cache)
    requires cache.Valid() && Agrees(m, cache, Hist(s))
    ensures Core(m, cfg, s.(cache := cache), items, Unfed)
  {
    hide Cache.Valid, Agrees;
    var t := s.(cache := cache);
    HistSame(s, t);
    forall k | 0 <= k < |items| ensures ItemInFlight(m, cfg, t, items[k], Unfed) {
      assert ItemInFlight(m, cfg, s, items[k], Unfed);
    }
    forall j | j in t.active ensures LengthOk(t, j) && Settled(t, j) {
      assert LengthOk(s, j) && Settled(s, j);
    }
  }

  /** A call that grew tables, wrote some mapped slots and then failed. */
  lemma {:induction false} CrashedCore(m: Model, cfg: Config, s: Sys, items: seq<BatchItem>, cache: Cache)
    requires Core(m, cfg, s, items, Unfed) && Grown(s.cache, cache.(pool := s.cache.pool), items)
    requires cache.Valid() && Agrees(m, cache, Hist(s))
    ensures Core(m, cfg, s.(cache := cache), items, Broken)
  {
    hide Cache.Valid, Agrees, OneReturned, NoDup, Sound, BlocksFor, Progress, ItemMatches;
    var t := s.(cache := cache);
    HistSame(s, t);
    StillOneReturned(s, t);
    forall k | 0 <= k < |items| ensures ItemInFlight(m, cfg, t, items[k], Broken) {
      assert ItemInFlight(m, cfg, s, items[k], Unfed);
    }
    forall j | j in t.active ensures LengthOk(t, j) && (j !in ItemIds(items) ==> Settled(t, j)) {
      assert LengthOk(s, j) && Settled(s, j);
    }
  }

  lemma {:induction false} LandCore(m: Model, cfg: Config, s: Sys, items: seq<BatchItem>, outcome: Outcome,
                                    cache: Cache, ran: bool, mode: Mode)
    requires Core(m, cfg, (if ran then FedAll(s, items) else s).(cache := cache), items, mode)
    ensures Core(m, cfg, Land(s, items, outcome, cache, ran), items, mode)
    ensures mode == ModeOf(outcome) && items != [] ==> Inv(m, cfg, Land(s, items, outcome, cache, ran))
  {
    var t := (if ran then FedAll(s, items) else s).(cache := cache);
    PhaseCore(m, cfg, t, items, mode, Landed(items, outcome), Land(s, items, outcome, cache, ran).metrics);
  }

  lemma {:induction false} RanInv(m: Model, cfg: Config, s: Sys, items: seq<BatchItem>, cache: Cache,
                                  outputs: map<nat, Token>)
    requires Core(m, cfg, s, items, Unfed) && items != [] && CompletedCall(m, s.cache, cache, Hist(s), items, outputs)
    requires GraphSafe(cfg) ==> RightOutputs(m, Hist(s), items, outputs)
    ensures Inv(m, cfg, Land(s, items, Ran(outputs), cache, true))
  {
    RanCore(m, cfg, s, items, cache, outputs);
    LandCore(m, cfg, s, items, Ran(outputs), cache, true, Fed(outputs));
  }

  /** The same call failing while it samples. */
  lemma {:induction false} LateInv(m: Model, cfg: Config, s: Sys, items: seq<BatchItem>, cache: Cache,
                                   outputs: map<nat, Token>)
    requires Core(m, cfg, s, items, Unfed) && items != [] && CompletedCall(m, s.cache, cache, Hist(s), items, outputs)
    requires GraphSafe(cfg) ==> RightOutputs(m, Hist(s), items, outputs)
    ensures Inv(m, cfg, Land(s, items, Crashed, cache, true))
  {
    hide Core, CompletedCall, RightOutputs, GraphSafe, Land;
    RanBroken(m, cfg, s, items, cache, outputs);
    LandCore(m, cfg, s, items, Crashed, cache, true, Broken);
  }

  lemma {:induction false} RanBroken(m: Model, cfg: Config, s: Sys, items: seq<BatchItem>, cache: Cache,
                                     outputs: map<nat, Token>)
    requires Core(m, cfg, s, items, Unfed) && CompletedCall(m, s.cache, cache, Hist(s), items, outputs)
    requires GraphSafe(cfg) ==> RightOutputs(m, Hist(s), items, outputs)
    ensures Core(m, cfg, FedAll(s, items).(cache := cache), items, Broken)
  {
    RanCore(m, cfg, s, items, cache, outputs);
    BreakCore(m, cfg, FedAll(s, items).(cache := cache), items, Fed(outputs));
  }

  lemma {:induction false} CapacityInv(m: Model, cfg: Config, s: Sys, items: seq<BatchItem>, cache: Cache)
    requires Core(m, cfg, s, items, Unfed) && items != []
    requires SameRequests(s.cache, cache) && cache.Valid() && Agrees(m, cache, Hist(s))
    ensures Inv(m, cfg, Land(s, items, CapacityError, cache, false))
  {
    SameRequestsCore(m, cfg, s, items, cache);
    LandCore(m, cfg, s, items, CapacityError, cache, false, Unfed);
  }

  lemma {:induction false} CrashedInv(m: Model, cfg: Config, s: Sys, items: seq<BatchItem>, cache: Cache)
    requires Core(m, cfg, s, items, Unfed) && items != []
    requires Grown(s.cache, cache.(pool := s.cache.pool), items) && cache.Valid() && Agrees(m, cache, Hist(s))
    ensures Inv(m, cfg, Land(s, items, Crashed, cache, false))
  {
    CrashedCore(m, cfg, s, items, cache);
    LandCore(m, cfg, s, items, Crashed, cache, false, Broken);
  }

  lemma {:induction false} ExecuteInv(m: Model, cfg: Config, s: Sys, items: seq<BatchItem>)
    requires Core(m, cfg, s, items, Unfed) && items != [] && (GraphSafe(cfg) ==> RowsSafe(cfg.graph, items))
    ensures Inv(m, cfg, ExecuteStep(m, cfg, s, items)) && Inv(m, cfg, ExecuteFailsLate(m, cfg, s, items))
  {
    FlightPlan(m, cfg, s, items);
    ExecuteFacts(m, cfg.graph, cfg.maxModelLen, s.cache, Hist(s), items);
    var (outcome, cache) := Execute(m, cfg.graph, cfg.maxModelLen, s.cache, items);
    match outcome
    case Ran(outputs) =>
      RanInv(m, cfg, s, items, cache, outputs);
      LateInv(m, cfg, s, items, cache, outputs);
    case CapacityError => CapacityInv(m, cfg, s, items, cache);
    case Crashed =>
      assert cache.(pool := s.cache.pool) == cache;
      CrashedInv(m, cfg, s, items, cache);
  }

  lemma {:induction false} FailedInv(m: Model, cfg: Config, s: Sys, items: seq<BatchItem>, outcome: Outcome,
                                     cache: Cache)
    requires Core(m, cfg, s, items, Unfed) && items != [] && cache.Valid() && Agrees(m, cache, Hist(s)) && !outcome.Ran?
    requires outcome.CapacityError? ==> SameRequests(s.cache, cache)
    requires outcome.Crashed? ==> Grown(s.cache, cache.(pool := s.cache.pool), items)
    ensures Inv(m, cfg, Land(s, items, outcome, cache, false))
  {
    hide Inv, Land, Core, Cache.Valid, Agrees, Grown;
    if outcome.CapacityError? {
      CapacityInv(m, cfg, s, items, cache);
    } else {
      CrashedInv(m, cfg, s, items, cache);
    }
  }

  lemma {:induction false} ExecuteFailsInv(m: Model, cfg: Config, s: Sys, items: seq<BatchItem>, pool: seq<Layer>)
    requires Core(m, cfg, s, items, Unfed) && items != []
    ensures Inv(m, cfg, ExecuteFails(cfg, s, items, pool))
  {
    hide Inv, Land, ExecuteFailing, Cache.Valid, Agrees, Grown, Places;
    FlightPlan(m, cfg, s, items);
    ExecuteFailingFacts(m, cfg.graph, cfg.maxModelLen, s.cache, Hist(s), items, pool);
    var (outcome, cache) := ExecuteFailing(cfg.graph, cfg.maxModelLen, s.cache, items, pool);
    FailedInv(m, cfg, s, items, outcome, cache);
  }

  // -- post-processing --------------------------------------------------------------------------

  lemma {:induction false} PostInv(m: Model, cfg: Config, s: Sys, now: int)
    requires Inv(m, cfg, s) && s.phase.Landed?
    ensures Core(m, cfg, Post(cfg, s, now), [], Unfed)
  {
    var items, outcome := s.phase.items, s.phase.outcome;
    PhaseCore(m, cfg, s, items, ModeOf(outcome), Idle, s.metrics);
    var idle := s.(phase := Idle);
    match outcome
    case Ran(outputs) => PostRanCore(m, cfg, idle, items, outputs, now);
    case CapacityError => PostCapacityCore(m, cfg, idle, items, now);
    case Crashed => PostCrashedCore(m, cfg, idle, items, now);
  }

  lemma {:induction false} PostRanPhase(cfg: Config, s: Sys, items: seq<BatchItem>, outputs: map<nat, Token>, now: int)
    ensures PostRan(cfg, s, items, outputs, now).phase == s.phase
    decreases |items|
  {
    if items != [] {
      PostRanPhase(cfg, PostItem(cfg, s, items[0], outputs, now), items[1..], outputs, now);
    }
  }

  lemma {:induction false} PostCrashedPhase(cfg: Config, s: Sys, items: seq<BatchItem>, now: int)
    ensures PostCrashed(cfg, s, items, now).phase == s.phase
    ensures PostRejected(cfg, s, items, now).phase == s.phase
    decreases |items|
  {
    if items != [] {
      var i := items[0].id;
      PostCrashedPhase(cfg, if s.Get(i).Terminal() then Finalize(cfg, s, i, now) else Fail(cfg, s, i, false, now),
        items[1..], now);
      PostCrashedPhase(cfg, Fail(cfg, s, i, true, now), items[1..], now);
    }
  }

  lemma {:induction false} PostPhase(cfg: Config, s: Sys, now: int)
    requires s.phase.Landed?
    ensures Post(cfg, s, now).phase == Idle
  {
    var idle := s.(phase := Idle);
    match s.phase.outcome
    case Ran(outputs) => PostRanPhase(cfg, idle, s.phase.items, outputs, now);
    case CapacityError => PostCrashedPhase(cfg, idle, s.phase.items, now);
    case Crashed => PostCrashedPhase(cfg, idle, s.phase.items, now);
  }

  // -- every run -----------------------------------------------------------------------------------

  /** Handlers that may run at any await leave the phase alone. */
  lemma {:induction false} InterleavedInv(m: Model, cfg: Config, s: Sys, s': Sys)
    requires Inv(m, cfg, s) && s'.phase == s.phase
    requires forall items, mode :: Core(m, cfg, s, items, mode) && s.InFlight() == ItemIds(items) ==>
      Core(m, cfg, s', items, mode)
    ensures Inv(m, cfg, s')
  {
    match s.phase
    case Idle => assert ItemIds([]) == []; assert Core(m, cfg, s, [], Unfed);
    case Planned(items) => assert Core(m, cfg, s, items, Unfed);
    case Landed(items, outcome) => assert Core(m, cfg, s, items, ModeOf(outcome));
  }

  lemma {:induction false} ConsumeCore(m: Model, cfg: Config, s: Sys, i: nat, items: seq<BatchItem>, mode: Mode)
    requires Core(m, cfg, s, items, mode)
    ensures Core(m, cfg, Consume(s, i), items, mode)
  {
    var r := s.Get(i);
    if r.queue != [] {
      SetSameCore(m, cfg, s, i, r.(queue := r.queue[1..], consumed := r.consumed + [r.queue[0]]), items, mode);
    }
  }

  lemma {:induction false} SubmitInv(m: Model, cfg: Config, s: Sys, prompt: seq<Token>, maxOut: int, eos: Option<Token>,
                                     now: int)
    requires Inv(m, cfg, s)
    ensures Inv(m, cfg, Submit(cfg, s, prompt, maxOut, eos, now))
  {
    forall items, mode | Core(m, cfg, s, items, mode)
      ensures Core(m, cfg, Submit(cfg, s, prompt, maxOut, eos, now), items, mode) {
      SubmitCore(m, cfg, s, prompt, maxOut, eos, now, items, mode);
    }
    InterleavedInv(m, cfg, s, Submit(cfg, s, prompt, maxOut, eos, now));
  }

  lemma {:induction false} CancelInv(m: Model, cfg: Config, s: Sys, i: nat, now: int)
    requires Inv(m, cfg, s) && i < |s.reqs|
    ensures Inv(m, cfg, Cancel(cfg, s, i, now))
  {
    forall items, mode | Core(m, cfg, s, items, mode) && s.InFlight() == ItemIds(items)
      ensures Core(m, cfg, Cancel(cfg, s, i, now), items, mode) {
      CancelCore(m, cfg, s, i, now, items, mode);
    }
    CancelShape(cfg, s, i, now);
    InterleavedInv(m, cfg, s, Cancel(cfg, s, i, now));
  }

  lemma {:induction false} ConsumeInv(m: Model, cfg: Config, s: Sys, i: nat)
    requires Inv(m, cfg, s)
    ensures Inv(m, cfg, Consume(s, i))
  {
    forall items, mode | Core(m, cfg, s, items, mode) ensures Core(m, cfg, Consume(s, i), items, mode) {
      ConsumeCore(m, cfg, s, i, items, mode);
    }
    InterleavedInv(m, cfg, s, Consume(s, i));
  }

  /** Handlers the clients call. */
  predicate FromClient(e: Event) {
    e.ESubmit? || e.ECancel? || e.EConsume?
  }

  lemma {:induction false} ClientInv(m: Model, cfg: Config, s: Sys, e: Event)
    requires Inv(m, cfg, s) && FromClient(e)
    ensures Inv(m, cfg, Step(m, cfg, s, e))
  {
    match e
    case ESubmit(prompt, maxOut, eos, now) => SubmitInv(m, cfg, s, prompt, maxOut, eos, now);
    case ECancel(i, now) => if i < |s.reqs| { CancelInv(m, cfg, s, i, now); }
    case EConsume(i) => ConsumeInv(m, cfg, s, i);
  }

  lemma {:induction false} LoopInv(m: Model, cfg: Config, s: Sys, e: Event)
    requires Inv(m, cfg, s) && !FromClient(e)
    ensures Inv(m, cfg, Step(m, cfg, s, e))
  {
    hide Inv, Core, Iterate, ExecuteStep, ExecuteFails, ExecuteFailsLate, Post, RowsSafe, GraphSafe;
    PhaseParts(m, cfg, s);
    match e
    case EIterate(now) => if s.phase.Idle? { IterateInv(m, cfg, s, now); }
    case EExecute => if s.phase.Planned? { ExecuteInv(m, cfg, s, s.phase.items); }
    case EExecuteFails(pool) => if s.phase.Planned? { ExecuteFailsInv(m, cfg, s, s.phase.items, pool); }
    case EExecuteFailsLate => if s.phase.Planned? { ExecuteInv(m, cfg, s, s.phase.items); }
    case EPost(now) => if s.phase.Landed? { PostStepInv(m, cfg, s, now); }
  }

  /** What the invariant says in the two phases in which the loop moves on by itself. */
  lemma {:induction false} PhaseParts(m: Model, cfg: Config, s: Sys)
    requires Inv(m, cfg, s)
    ensures s.phase.Idle? ==> Core(m, cfg, s, [], Unfed)
    ensures s.phase.Planned? ==> Core(m, cfg, s, s.phase.items, Unfed) && s.phase.items != []
    ensures s.phase.Planned? ==> (GraphSafe(cfg) ==> RowsSafe(cfg.graph, s.phase.items))
  {
  }

  lemma {:induction false} PostStepInv(m: Model, cfg: Config, s: Sys, now: int)
    requires Inv(m, cfg, s) && s.phase.Landed?
    ensures Inv(m, cfg, Post(cfg, s, now))
  {
    hide Core, Post;
    PostInv(m, cfg, s, now);
    PostPhase(cfg, s, now);
  }

  /** The invariant is kept by every step of the machine. */
  lemma {:induction false} StepInv(m: Model, cfg: Config, s: Sys, e: Event)
    requires Inv(m, cfg, s)
    ensures Inv(m, cfg, Step(m, cfg, s, e))
  {
    if FromClient(e) {
      ClientInv(m, cfg, s, e);
    } else {
      LoopInv(m, cfg, s, e);
    }
  }

  lemma {:induction false} InitialInv(m: Model, cfg: Config, s: Sys)
    requires Initial(m, s)
    ensures Inv(m, cfg, s)
  {
  }

  lemma {:induction false} RunInv(m: Model, cfg: Config, s: Sys, events: seq<Event>)
    requires Initial(m, s)
    ensures Inv(m, cfg, Run(m, cfg, s, events))
  {
    if events == [] {
      InitialInv(m, cfg, s);
    } else {
      RunInv(m, cfg, s, events[..|events| - 1]);
      StepInv(m, cfg, Run(m, cfg, s, events[..|events| - 1]), events[|events| - 1]);
    }
  }

  /** The part of the invariant that does not depend on what is in flight. */
  lemma {:induction false} InvParts(m: Model, cfg: Config, s: Sys)
    requires Inv(m, cfg, s)
    ensures CacheOk(m, s) && Places(cfg, s) && AllFaithful(m, cfg, s)
  {
  }

  /**
   * Token parity over every run: whatever is batched, chunked, restored, evicted, preempted, cancelled or
   * crashed around it, each request has at any time generated a prefix of what the reference runner answers
   * its prompt alone, and a completed request has generated exactly that answer.
   */
  lemma {:induction false} TokenParity(m: Model, cfg: Config, s: Sys, events: seq<Event>, i: nat)
    requires Initial(m, s) && GraphSafe(cfg) && i < |Run(m, cfg, s, events).reqs|
    ensures var r := Run(m, cfg, s, events).reqs[i];
      && r.prompt != []
      && r.generated <= Answer(m, r.prompt, r.eos, r.maxOut)
      && (r.state.Completed? <==> r.generated == Answer(m, r.prompt, r.eos, r.maxOut))
  {
    RunInv(m, cfg, s, events);
    var s' := Run(m, cfg, s, events);
    InvParts(m, cfg, s');
    var r := s'.reqs[i];
    assert Faithful(m, cfg, r);
    AnswerSoFar(m, r.prompt, r.eos, r.maxOut, r.generated);
    AnswerStops(m, r.prompt, r.eos, r.maxOut, []);
  }

  lemma {:induction false} AnswerStops(m: Model, prompt: seq<Token>, eos: Option<Token>, maxOut: int, said: seq<Token>)
    requires prompt != []
    ensures Stops(AnswerFrom(m, prompt, eos, maxOut, said), eos, maxOut)
    decreases if maxOut > |said| then maxOut - |said| else 0
  {
    var g := said + [Next(m, prompt + said)];
    if !Stops(g, eos, maxOut) {
      AnswerStops(m, prompt, eos, maxOut, g);
    }
  }

  /**
   * Content agreement over every run: all blocks partition, and every committed position of every resident
   * request and every retained prefix holds the KV of exactly its token prefix.
   */
  lemma {:induction false} ContentOverRuns(m: Model, cfg: Config, s: Sys, events: seq<Event>)
    requires Initial(m, s)
    ensures var s' := Run(m, cfg, s, events); s'.cache.Valid() && Agrees(m, s'.cache, Hist(s'))
    ensures ListsResidents(Run(m, cfg, s, events).cache, Run(m, cfg, s, events).active)
  {
    RunInv(m, cfg, s, events);
    InvParts(m, cfg, Run(m, cfg, s, events));
  }

  // -- decoding requests wait for nobody -----------------------------------------------------------

  /** The item that gives request `i` its next token. */
  ghost predicate DecodedBy(items: seq<BatchItem>, i: nat) {
    exists k :: 0 <= k < |items| && items[k].id == i && items[k].sample && |items[k].tokens| == 1
  }

  lemma {:induction false} DecodeItemsHave(s: Sys, d: seq<Candidate>, rest: seq<BatchItem>, c: Candidate)
    requires c in d
    ensures DecodedBy(DecodeItems(s, d) + rest, c.id)
  {
    var items := DecodeItems(s, d) + rest;
    if d[0] == c {
      assert items[0] == DecodeItem(s, c);
    } else {
      assert d == [d[0]] + d[1..];
      DecodeItemsHave(s, d[1..], rest, c);
      var tail := DecodeItems(s, d[1..]) + rest;
      var k :| 0 <= k < |tail| && tail[k].id == c.id && tail[k].sample && |tail[k].tokens| == 1;
      assert items[k + 1] == tail[k];
    }
  }

  lemma {:induction false} DecodesPlanned(m: Model, cfg: Config, s: Sys, i: nat)
    requires Core(m, cfg, s, [], Unfed) && cfg.priority == DecodeFirst && cfg.budget >= cfg.activeLimit
    requires i in s.active && Eligible(s.Get(i)) && s.Get(i).state.Decoding?
    ensures DecodedBy(BuildPlan(cfg, s), i)
  {
    hide Core, DecodedBy, Decodes, Candidates, Prefills, Fill, Eligible, BuildPlan, NoDup, DecodeItems;
    CorePlaces(m, cfg, s);
    OneLeft(m, cfg, s, i);
    NonEmpty(s.active, i);
    DecodeFirstPlan(cfg, s);
    var d := Decodes(Candidates(s, s.active));
    DecodeItemsHave(s, d, Fill(cfg, s, Prefills(Candidates(s, s.active)), cfg.budget - |d|), CandidateOf(s, i));
  }

  lemma {:induction false} OneLeft(m: Model, cfg: Config, s: Sys, i: nat)
    requires Core(m, cfg, s, [], Unfed) && i in s.active && s.Get(i).state.Decoding?
    ensures s.Get(i).fed + 1 == |s.Get(i).Known()|
  {
    hide CacheOk, Places, AllFaithful, Flight;
    assert Settled(s, i);
  }

  lemma {:induction false} NonEmpty(ids: seq<nat>, i: nat)
    requires i in ids
    ensures ids != []
  {
  }

  /**
   * Over every run, under the production policy with a budget no smaller than the active limit: whoever is
   * resident and decoding after an iteration, with nothing undelivered, is given its next token by its forward.
   */
  lemma {:induction false} DecodesEveryIteration(m: Model, cfg: Config, s0: Sys, events: seq<Event>, now: int, i: nat)
    requires Initial(m, s0) && cfg.priority == DecodeFirst && cfg.budget >= cfg.activeLimit
    requires Run(m, cfg, s0, events).phase.Idle?
    requires var t := Step(m, cfg, Run(m, cfg, s0, events), EIterate(now));
      i in t.active && Eligible(t.Get(i)) && t.Get(i).state.Decoding?
    ensures var t := Step(m, cfg, Run(m, cfg, s0, events), EIterate(now));
      t.phase.Planned? && DecodedBy(t.phase.items, i) && NoDup(ItemIds(t.phase.items))
  {
    hide Reap, DrainStreams, AdmitWaiting, BuildPlan, Core, Eligible, DecodedBy, Run;
    var s := Run(m, cfg, s0, events);
    RunInv(m, cfg, s0, events);
    PhaseParts(m, cfg, s);
    BeforePlanCore(m, cfg, s, now);
    var reaped := Reap(cfg, s, now);
    var d := AdmitWaiting(cfg, DrainStreams(cfg, reaped, reaped.active, now), now);
    DecodesPlanned(m, cfg, d, i);
    CorePlaces(m, cfg, d);
    PlanGuarantees(cfg, d);
    NotDecodedByNone(i);
  }

  lemma {:induction false} NotDecodedByNone(i: nat)
    ensures !DecodedBy([], i)
  {
  }
}
