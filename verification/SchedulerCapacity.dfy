/** Capacity rejections: exactly when a step rejects, and whom; a request that fits included. */
module SchedulerCapacity {
  import opened Lists
  import opened Allocator
  import opened Transformer
  import opened KvCache
  import opened KvCacheValid
  import opened KvCacheContent
  import opened Packing
  import opened Runner
  import opened Scheduling
  import opened SchedulerCore
  import opened SchedulerRun
  import opened SchedulerMoves
  import opened SchedulerStreams
  import opened SchedulerCounts
  import opened SchedulerThrash
  import opened SchedulerWork

  // -- one resident ---------------------------------------------------------------------------

  lemma {:induction false} CapacityIsFull(m: Model, graph: bool, maxModelLen: nat, c: Cache, items: seq<BatchItem>)
    ensures Execute(m, graph, maxModelLen, c, items).0.CapacityError? <==>
      c.EnsureCapacity(Required(items)).0 == Some(Full)
  {
  }

  lemma {:induction false} OneItem(items: seq<BatchItem>, i: nat)
    requires items != [] && NoDup(ItemIds(items)) && forall k :: 0 <= k < |items| ==> items[k].id == i
    ensures |items| == 1
  {
    if |items| > 1 {
      TwoItems(items, i);
    }
  }

  lemma {:induction false} TwoItems(items: seq<BatchItem>, i: nat)
    requires |items| > 1 && forall k :: 0 <= k < |items| ==> items[k].id == i
    ensures !NoDup(ItemIds(items))
  {
    assert ItemIds(items)[0] == ItemIds(items)[1];
  }

  lemma {:induction false} SoleDemand(c: Cache, item: BatchItem)
    requires c.Valid() && item.id in c.tables && ListsResidents(c, [item.id])
    ensures TableBlocks(c, [item.id]) + Sum(Additions(c.size, c.tables, Required([item]))) ==
            Larger(|c.tables[item.id]|, BlocksFor(c.size, item.End()))
    ensures |c.tables[item.id]| <= c.alloc.total
  {
    var adds := Additions(c.size, c.tables, Required([item]));
    assert adds == [Missing(c.size, c.tables, (item.id, item.End()))];
    assert adds[..0] == [] && Sum(adds) == adds[0];
    assert [item.id][..0] == [] && TableBlocks(c, [item.id]) == |c.tables[item.id]|;
    BlockConservation(c, [item.id]);
  }

  lemma {:induction false} SoleItem(m: Model, cfg: Config, s: Sys, items: seq<BatchItem>, i: nat)
    requires Core(m, cfg, s, items, Unfed) && items != [] && s.active == [i]
    ensures |items| == 1 && items[0].id == i
    ensures s.cache.Valid() && i in s.cache.tables && ListsResidents(s.cache, [i])
  {
    hide Cache.Valid, Agrees, AllFaithful, Residents, ItemMatches;
    forall k | 0 <= k < |items| ensures items[k].id == i {
      assert ItemInFlight(m, cfg, s, items[k], Unfed);
    }
    OneItem(items, i);
    assert i in s.active;
  }

  /** With one request resident, a forward fails for capacity exactly when that request alone exceeds the pool. */
  lemma {:induction false} SoleCapacityExactly(m: Model, cfg: Config, s: Sys, items: seq<BatchItem>, i: nat)
    requires Core(m, cfg, s, items, Unfed) && items != [] && s.active == [i]
    ensures |items| == 1 && items[0].id == i
    ensures Execute(m, cfg.graph, cfg.maxModelLen, s.cache, items).0.CapacityError? <==>
            BlocksFor(s.cache.size, items[0].End()) > s.cache.alloc.total
  {
    hide Core, Execute, Cache.EnsureCapacity, BlocksFor, Cache.Valid, ListsResidents;
    SoleItem(m, cfg, s, items, i);
    assert items == [items[0]];
    CapacityIsFull(m, cfg.graph, cfg.maxModelLen, s.cache, items);
    SoleFull(s.cache, items[0]);
  }

  lemma {:induction false} SoleFull(c: Cache, item: BatchItem)
    requires c.Valid() && item.id in c.tables && ListsResidents(c, [item.id])
    ensures c.EnsureCapacity(Required([item])).0 == Some(Full) <==> BlocksFor(c.size, item.End()) > c.alloc.total
  {
    SoleDemand(c, item);
    assert Ids(Required([item])) == [item.id];
    FullExactly(c, Required([item]), [item.id]);
  }

  // -- which step rejects --------------------------------------------------------------------------

  /** Nobody has been newly rejected. */
  ghost predicate NoneRejected(s: Sys, s': Sys) {
    |s'.reqs| >= |s.reqs| && forall j :: 0 <= j < |s'.reqs| && s'.reqs[j].rejected ==>
      j < |s.reqs| && s.reqs[j].rejected
  }

  lemma {:induction false} FinalizeRejects(cfg: Config, s: Sys, i: nat, now: int)
    ensures NoneRejected(s, Finalize(cfg, s, i, now))
  {
    FinalOnlyStream(s.Get(i), cfg.streamCapacity, now);
  }

  lemma {:induction false} CancelRejects(cfg: Config, s: Sys, i: nat, now: int)
    ensures NoneRejected(s, Cancel(cfg, s, i, now))
  {
    FinalizeRejects(cfg, s.Set(i, s.Get(i).(state := Cancelled)), i, now);
  }

  lemma {:induction false} FailRejects(cfg: Config, s: Sys, i: nat, now: int)
    ensures NoneRejected(s, Fail(cfg, s, i, false, now))
  {
    FinalizeRejects(cfg, s.Set(i, s.Get(i).(state := Failed, rejected := false)), i, now);
  }

  lemma {:induction false} ReapWaitingRejects(cfg: Config, s: Sys, ids: seq<nat>, now: int)
    ensures NoneRejected(s, ReapWaiting(cfg, s, ids, now))
    decreases |ids|
  {
    if ids != [] {
      var r := s.Get(ids[0]);
      if !r.Terminal() && now - r.arrival > cfg.queueTimeout {
        FinalizeRejects(cfg, s.(waiting := RemoveFirst(s.waiting, ids[0])).Set(ids[0], r.(state := TimedOut)), ids[0],
          now);
        ReapWaitingRejects(cfg, TimeOut(cfg, s, ids[0], now), ids[1..], now);
      } else {
        ReapWaitingRejects(cfg, s, ids[1..], now);
      }
    }
  }

  lemma {:induction false} ReapActiveRejects(cfg: Config, s: Sys, ids: seq<nat>, now: int)
    ensures NoneRejected(s, ReapActive(cfg, s, ids, now))
    decreases |ids|
  {
    if ids != [] {
      var r := s.Get(ids[0]);
      if r.stalled.Some? && now - r.stalled.value > cfg.stallTimeout {
        CancelRejects(cfg, s, ids[0], now);
        ReapActiveRejects(cfg, Cancel(cfg, s, ids[0], now), ids[1..], now);
      } else {
        ReapActiveRejects(cfg, s, ids[1..], now);
      }
    }
  }

  lemma {:induction false} DrainRejects(cfg: Config, s: Sys, ids: seq<nat>, now: int)
    ensures NoneRejected(s, DrainStreams(cfg, s, ids, now))
    decreases |ids|
  {
    if ids != [] {
      DrainedOnlyStream(s.Get(ids[0]), cfg.streamCapacity, now);
      DrainRejects(cfg, DrainOne(cfg, s, ids[0], now), ids[1..], now);
    }
  }

  lemma {:induction false} AdmitOneRejects(cfg: Config, s: Sys, i: nat, now: int)
    requires s.cache.CanReserve(i, 0)
    ensures NoneRejected(s, AdmitOne(cfg, s, i, now))
  {
  }

  /** Admission never refuses anybody: an empty table always fits. */
  lemma {:induction false} AdmitRejects(m: Model, cfg: Config, s: Sys, now: int)
    requires Core(m, cfg, s, [], Unfed)
    ensures NoneRejected(s, AdmitWaiting(cfg, s, now))
    decreases |s.waiting|
  {
    if s.waiting == [] || |s.active| >= cfg.activeLimit || Blocked(s, s.waiting[0]) {
    } else {
      AdmitOneCore(m, cfg, s, now);
      AdmitOneRejects(cfg, s.(waiting := s.waiting[1..]), s.waiting[0], now);
      RemoveFirstShrinks(s.waiting[1..], s.waiting[0]);
      AdmitRejects(m, cfg, AdmitOne(cfg, s.(waiting := s.waiting[1..]), s.waiting[0], now), now);
    }
  }

  lemma {:induction false} IterateRejects(m: Model, cfg: Config, s: Sys, now: int)
    requires Core(m, cfg, s, [], Unfed) && s.phase.Idle?
    ensures NoneRejected(s, Iterate(cfg, s, now))
  {
    ReapWaitingCore(m, cfg, s, s.waiting, now);
    ReapWaitingRejects(cfg, s, s.waiting, now);
    var a := ReapWaiting(cfg, s, s.waiting, now);
    ReapActiveCore(m, cfg, a, a.active, now);
    ReapActiveRejects(cfg, a, a.active, now);
    var b := ReapActive(cfg, a, a.active, now);
    DrainStreamsCore(m, cfg, b, b.active, now);
    DrainRejects(cfg, b, b.active, now);
    AdmitRejects(m, cfg, DrainStreams(cfg, b, b.active, now), now);
  }

  lemma {:induction false} TokenRejects(cfg: Config, s: Sys, i: nat, token: Token, now: int)
    ensures NoneRejected(s, AfterToken(cfg, s, i, token, now))
  {
    var w := WithToken(s.Get(i), token, cfg.streamCapacity, now);
    TokenOnlyStream(s.Get(i), token, cfg.streamCapacity, now);
    FinalizeRejects(cfg, s.Set(i, w), i, now);
  }

  lemma {:induction false} PostItemRejects(cfg: Config, s: Sys, item: BatchItem, outputs: map<nat, Token>, now: int)
    ensures NoneRejected(s, PostItem(cfg, s, item, outputs, now))
  {
    var i := item.id;
    FinalizeRejects(cfg, s, i, now);
    var t := s.Set(i, Recomputed(s.Get(i), item));
    FailRejects(cfg, t, i, now);
    if i in outputs {
      TokenRejects(cfg, t, i, outputs[i], now);
    }
  }

  lemma {:induction false} PostRanRejects(cfg: Config, s: Sys, items: seq<BatchItem>, outputs: map<nat, Token>,
                                          now: int)
    ensures NoneRejected(s, PostRan(cfg, s, items, outputs, now))
    decreases |items|
  {
    if items != [] {
      PostItemRejects(cfg, s, items[0], outputs, now);
      PostRanRejects(cfg, PostItem(cfg, s, items[0], outputs, now), items[1..], outputs, now);
    }
  }

  lemma {:induction false} PostCrashedRejects(cfg: Config, s: Sys, items: seq<BatchItem>, now: int)
    ensures NoneRejected(s, PostCrashed(cfg, s, items, now))
    decreases |items|
  {
    if items != [] {
      var i := items[0].id;
      FinalizeRejects(cfg, s, i, now);
      FailRejects(cfg, s, i, now);
      PostCrashedRejects(cfg, if s.Get(i).Terminal() then Finalize(cfg, s, i, now) else Fail(cfg, s, i, false, now),
        items[1..], now);
    }
  }

  lemma {:induction false} FailShape(cfg: Config, s: Sys, i: nat, now: int)
    ensures var t := Fail(cfg, s, i, true, now);
      && |t.reqs| == |s.reqs| && (forall j :: 0 <= j < |s.reqs| && j != i ==> t.reqs[j] == s.reqs[j])
      && (i < |s.reqs| && s.reqs[i].Terminal() ==> t.reqs[i] == s.reqs[i])
      && (i < |s.reqs| && !s.reqs[i].Terminal() ==> t.reqs[i].Terminal() && t.reqs[i].rejected)
  {
    hide Drained, Teardown;
    FinalOnlyStream(s.Get(i).(state := Failed, rejected := true), cfg.streamCapacity, now);
  }

  lemma {:induction false} TerminalStays(cfg: Config, s: Sys, items: seq<BatchItem>, now: int, i: nat)
    requires i < |s.reqs| && s.reqs[i].Terminal()
    ensures i < |PostRejected(cfg, s, items, now).reqs| && PostRejected(cfg, s, items, now).reqs[i] == s.reqs[i]
    decreases |items|
  {
    hide Fail;
    if items != [] {
      FailShape(cfg, s, items[0].id, now);
      TerminalStays(cfg, Fail(cfg, s, items[0].id, true, now), items[1..], now, i);
    }
  }

  /** Failing the items of a plan rejects exactly the unfinished requests among them. */
  lemma {:induction false} PostRejectedExactly(cfg: Config, s: Sys, items: seq<BatchItem>, now: int, i: nat)
    requires i < |s.reqs| && !s.reqs[i].rejected
    ensures i < |PostRejected(cfg, s, items, now).reqs|
    ensures PostRejected(cfg, s, items, now).reqs[i].rejected <==> i in ItemIds(items) && !s.reqs[i].Terminal()
    decreases |items|
  {
    hide Fail;
    if items != [] {
      assert ItemIds(items) == [items[0].id] + ItemIds(items[1..]);
      var t := Fail(cfg, s, items[0].id, true, now);
      FailShape(cfg, s, items[0].id, now);
      if t.reqs[i].Terminal() {
        TerminalStays(cfg, t, items[1..], now, i);
      } else {
        PostRejectedExactly(cfg, t, items[1..], now, i);
      }
    }
  }

  lemma {:induction false} ClientRejects(m: Model, cfg: Config, s: Sys, e: Event)
    requires FromClient(e)
    ensures NoneRejected(s, Step(m, cfg, s, e))
  {
    if e.ECancel? {
      CancelRejects(cfg, s, e.id, e.now);
    }
  }

  lemma {:induction false} ForwardRejects(m: Model, cfg: Config, s: Sys, e: Event)
    requires s.phase.Planned? && Tidy(Point(s, s.phase.items, Unfed))
    requires (e.EExecute? || e.EExecuteFails? || e.EExecuteFailsLate?)
    ensures NoneRejected(s, Step(m, cfg, s, e))
  {
    if e.EExecuteFails? {
      ExecuteFailsRejects(cfg, s, s.phase.items, e.pool);
    } else {
      ExecuteRejects(m, cfg, s, s.phase.items);
    }
  }

  /**
   * A step newly rejects a request if and only if it processes a capacity error it cannot preempt for, and the
   * request is in the failed plan and unfinished.
   */
  lemma {:induction false} RejectedBy(m: Model, cfg: Config, s: Sys, e: Event, i: nat)
    requires Inv(m, cfg, s) && i < |s.reqs| && !s.reqs[i].rejected
    ensures Step(m, cfg, s, e).Get(i).rejected <==>
      && e.EPost? && s.phase.Landed? && s.phase.outcome.CapacityError? && !CanPreempt(s)
      && i in ItemIds(s.phase.items) && !s.reqs[i].Terminal()
  {
    if FromClient(e) {
      ClientRejects(m, cfg, s, e);
    } else if e.EIterate? {
      if s.phase.Idle? {
        IterateRejects(m, cfg, s, e.now);
      }
    } else if e.EPost? {
      if s.phase.Landed? {
        PostRejects(cfg, s, e.now, i);
      }
    } else if s.phase.Planned? {
      PlanTidy(m, cfg, s);
      ForwardRejects(m, cfg, s, e);
    }
  }

  lemma {:induction false} LandNone(a: Point, outcome: Outcome, cache: Cache, ran: bool)
    requires Tidy(a)
    ensures NoneRejected(a.s, Land(a.s, a.items, outcome, cache, ran))
  {
    FedRejects(a);
  }

  lemma {:induction false} ExecuteRejects(m: Model, cfg: Config, s: Sys, items: seq<BatchItem>)
    requires Tidy(Point(s, items, Unfed))
    ensures NoneRejected(s, ExecuteStep(m, cfg, s, items)) && NoneRejected(s, ExecuteFailsLate(m, cfg, s, items))
  {
    var a := Point(s, items, Unfed);
    var (outcome, cache) := Execute(m, cfg.graph, cfg.maxModelLen, s.cache, items);
    LandNone(a, outcome, cache, outcome.Ran?);
    LandNone(a, if outcome.Ran? then Crashed else outcome, cache, outcome.Ran?);
  }

  lemma {:induction false} ExecuteFailsRejects(cfg: Config, s: Sys, items: seq<BatchItem>, pool: seq<Layer>)
    requires Tidy(Point(s, items, Unfed))
    ensures NoneRejected(s, ExecuteFails(cfg, s, items, pool))
  {
    var a := Point(s, items, Unfed);
    var (outcome, cache) := ExecuteFailing(cfg.graph, cfg.maxModelLen, s.cache, items, pool);
    LandNone(a, outcome, cache, false);
  }

  lemma {:induction false} PlanTidy(m: Model, cfg: Config, s: Sys)
    requires Inv(m, cfg, s) && s.phase.Planned?
    ensures Tidy(Point(s, s.phase.items, Unfed))
  {
    OkTidy(m, cfg, Point(s, s.phase.items, Unfed));
  }

  lemma {:induction false} FedRejects(a: Point)
    requires Tidy(a)
    ensures var f := FedAll(a.s, a.items);
      |f.reqs| == |a.s.reqs| && forall j :: 0 <= j < |f.reqs| ==> f.reqs[j].rejected == a.s.reqs[j].rejected
  {
    LandRecords(a, Crashed, a.s.cache, true);
  }

  lemma {:induction false} PostRejects(cfg: Config, s: Sys, now: int, i: nat)
    requires s.phase.Landed? && i < |s.reqs| && !s.reqs[i].rejected
    ensures Post(cfg, s, now).Get(i).rejected <==>
      s.phase.outcome.CapacityError? && !CanPreempt(s) && i in ItemIds(s.phase.items) && !s.reqs[i].Terminal()
  {
    var idle, items := s.(phase := Idle), s.phase.items;
    LivingSame(s, idle, s.active);
    match s.phase.outcome
    case Ran(outputs) => PostRanRejects(cfg, idle, items, outputs, now);
    case CapacityError =>
      if CanPreempt(idle) {
        EvictRejects(idle, Victim(cfg, idle, Living(idle, idle.active)));
      } else {
        PostRejectedExactly(cfg, idle, items, now, i);
      }
    case Crashed => PostCrashedRejects(cfg, idle, items, now);
  }

  lemma {:induction false} EvictRejects(s: Sys, v: nat)
    ensures NoneRejected(s, Evicted(s, v))
  {
  }

  lemma {:induction false} LivingSame(s: Sys, s': Sys, ids: seq<nat>)
    requires s'.reqs == s.reqs
    ensures Living(s', ids) == Living(s, ids)
  {
    if ids != [] {
      LivingSame(s, s', ids[..|ids| - 1]);
    }
  }

  lemma {:induction false} ItemUnderCap(m: Model, cfg: Config, s: Sys, item: BatchItem)
    requires Inv(m, cfg, s) && s.phase.Planned? && item in s.phase.items && WorkOk(cfg, PointOf(s))
    ensures item.id < |s.reqs| && item.End() <= Cap(s.reqs[item.id])
  {
    var k :| 0 <= k < |s.phase.items| && s.phase.items[k] == item;
    assert ItemInFlight(m, cfg, s, item, Unfed);
    assert Faithful(m, cfg, s.reqs[item.id]);
    CapCovers(m, cfg, s.reqs[item.id]);
  }

  // -- exactly when a capacity failure rejects -----------------------------------------------------------

  /** Only failed requests are marked as rejected. */
  ghost predicate RejectedOk(a: Point) {
    forall i :: 0 <= i < |a.s.reqs| && a.s.reqs[i].rejected ==> a.s.reqs[i].state.Failed?
  }

  lemma {:induction false} RecordRejected(cfg: Config, a: Point, v: Move)
    requires OneRecord(v) && TouchedId(a, v) < |a.s.reqs|
    requires v.MEnd? ==> (v.state.Failed? || v.rejected == a.s.reqs[TouchedId(a, v)].rejected)
    requires v.MEnd? || v.MToken? || v.MPrefill? || v.MAdmit? || v.MEvict? || v.MMark? ==>
      !a.s.reqs[TouchedId(a, v)].Terminal()
    requires a.s.reqs[TouchedId(a, v)].rejected ==> a.s.reqs[TouchedId(a, v)].state.Failed?
    ensures NewRecord(cfg, a, v).rejected ==> NewRecord(cfg, a, v).state.Failed?
  {
    hide Drained;
    var r := a.s.reqs[TouchedId(a, v)];
    match v
    case MDrain(_, now) => DrainedOnlyStream(r, cfg.streamCapacity, now);
    case MEnd(_, state, rejected, now) => FinalOnlyStream(r.(state := state, rejected := rejected), cfg.streamCapacity,
      now);
    case MFinal(now) => FinalOnlyStream(r, cfg.streamCapacity, now);
    case MToken(token, now) =>
      TokenOnlyStream(r, token, cfg.streamCapacity, now);
      FinalOnlyStream(WithToken(r, token, cfg.streamCapacity, now), cfg.streamCapacity, now);
    case _ =>
  }

  lemma {:induction false} RejectedMove(m: Model, cfg: Config, a: Point, v: Move)
    requires Tidy(a) && Guard(m, cfg, a, v) && RejectedOk(a)
    ensures RejectedOk(Moved(cfg, a, v))
  {
    if OneRecord(v) {
      MovesOnTheLiving(m, cfg, a, v);
      AdmitReady(m, cfg, a, v);
      Touch(cfg, a, v);
      EndKeepsRejected(m, cfg, a, v);
      RecordRejected(cfg, a, v);
    } else if v.MLand? {
      LandRecords(a, v.outcome, v.cache, v.ran);
    }
  }

  lemma {:induction false} EndKeepsRejected(m: Model, cfg: Config, a: Point, v: Move)
    requires Guard(m, cfg, a, v) && (v.MEnd? ==> v.id < |a.s.reqs|)
    ensures v.MEnd? ==> v.state.Failed? || v.rejected == a.s.reqs[v.id].rejected
  {
  }

  lemma {:induction false} RejectedClosed(m: Model, cfg: Config)
    ensures Closed(m, cfg, (a: Point) => RejectedOk(a))
  {
    var P := (a: Point) => RejectedOk(a);
    forall a, v | Enabled(m, cfg, a, v) && P(a) ensures P(Moved(cfg, a, v)) {
      OkTidy(m, cfg, a);
      RejectedMove(m, cfg, a, v);
    }
  }

  lemma {:induction false} RejectedOverRuns(m: Model, cfg: Config, s: Sys, events: seq<Event>)
    requires Initial(m, s)
    ensures RejectedOk(PointOf(Run(m, cfg, s, events)))
  {
    InitialInv(m, cfg, s);
    RejectedClosed(m, cfg);
    RunKeeps(m, cfg, (a: Point) => RejectedOk(a), s, events);
  }

  lemma {:induction false} ClientShape(m: Model, cfg: Config, s: Sys, e: Event)
    requires FromClient(e)
    ensures Step(m, cfg, s, e).phase == s.phase && forall j :: j in Step(m, cfg, s, e).active ==> j in s.active
  {
    if e.ECancel? {
      OthersStay(s.active, e.id);
    }
  }

  lemma {:induction false} OthersStay(ids: seq<nat>, x: nat)
    ensures forall j :: j in RemoveFirst(ids, x) ==> j in ids
  {
    if ids != [] && ids[0] != x {
      OthersStay(ids[1..], x);
    }
  }

  /** What clients do while a forward is out: nobody becomes resident, and the plan stays in flight. */
  lemma {:induction false} ClientsKeep(m: Model, cfg: Config, s: Sys, clients: seq<Event>)
    requires Inv(m, cfg, s) && forall k :: 0 <= k < |clients| ==> FromClient(clients[k])
    ensures var w := Run(m, cfg, s, clients);
      Inv(m, cfg, w) && w.phase == s.phase && forall j :: j in w.active ==> j in s.active
  {
    hide Inv, Step, FromClient;
    if clients != [] {
      var n := |clients| - 1;
      ClientsKeep(m, cfg, s, clients[..n]);
      StepInv(m, cfg, Run(m, cfg, s, clients[..n]), clients[n]);
      ClientShape(m, cfg, Run(m, cfg, s, clients[..n]), clients[n]);
    }
  }

  /** A state reached by a forward failing for capacity and clients acting before its failure is processed. */
  ghost predicate FailedForward(m: Model, cfg: Config, s0: Sys, before: seq<Event>, s: Sys, clients: seq<Event>,
                                w: Sys) {
    && Initial(m, s0) && s == Run(m, cfg, s0, before) && s.phase.Planned?
    && ExecuteStep(m, cfg, s, s.phase.items).phase.outcome.CapacityError?
    && (forall k :: 0 <= k < |clients| ==> FromClient(clients[k]))
    && w == Run(m, cfg, ExecuteStep(m, cfg, s, s.phase.items), clients)
  }

  lemma {:induction false} FailedForwardFacts(m: Model, cfg: Config, s0: Sys, before: seq<Event>, s: Sys,
                                              clients: seq<Event>, w: Sys)
    requires FailedForward(m, cfg, s0, before, s, clients, w)
    ensures Inv(m, cfg, s) && WorkOk(cfg, PointOf(s)) && Inv(m, cfg, w) && RejectedOk(PointOf(w))
    ensures w.phase == Landed(s.phase.items, CapacityError)
    ensures forall j :: j in w.active ==> j in s.active
  {
    hide Inv, RejectedOk, WorkOk, Execute;
    RunInv(m, cfg, s0, before);
    WorkAtEnd(m, cfg, s0, before);
    var t := ExecuteStep(m, cfg, s, s.phase.items);
    assert Step(m, cfg, s, EExecute) == t;
    StepInv(m, cfg, s, EExecute);
    ExecuteStays(m, cfg, s, s.phase.items);
    ClientsKeep(m, cfg, t, clients);
    assert [EExecute][..0] == [];
    assert Run(m, cfg, s, [EExecute]) == t;
    RunSplit(m, cfg, s0, before, [EExecute]);
    RunSplit(m, cfg, s0, before + [EExecute], clients);
    RejectedOverRuns(m, cfg, s0, before + [EExecute] + clients);
  }

  lemma {:induction false} ExecuteStays(m: Model, cfg: Config, s: Sys, items: seq<BatchItem>)
    ensures ExecuteStep(m, cfg, s, items).active ==
      (if ExecuteStep(m, cfg, s, items).phase.outcome.Ran? then FedAll(s, items) else s).active
    ensures ExecuteStep(m, cfg, s, items).phase.Landed? && ExecuteStep(m, cfg, s, items).phase.items == items
  {
  }

  /** Whoever was resident besides `i` is gone or finished. */
  ghost predicate OthersOut(s: Sys, w: Sys, i: nat) {
    forall j :: j in s.active && j != i ==> j !in w.active || w.Get(j).Terminal()
  }

  lemma {:induction false} SoleLiving(s: Sys, w: Sys, i: nat)
    requires NoDup(w.active) && i in w.active && !w.Get(i).Terminal() && forall j :: j in w.active ==> j in s.active
    ensures !CanPreempt(w) <==> OthersOut(s, w, i)
  {
    var living := Living(w, w.active);
    LivingFacts(w, w.active);
    LivingNoDup(w, w.active);
    if OthersOut(s, w, i) {
      OnlyOne(living, i);
    } else {
      var j :| j in w.active && j != i && !w.Get(j).Terminal();
      assert i in living && j in living;
    }
  }

  lemma {:induction false} OnlyOne(ids: seq<nat>, i: nat)
    requires NoDup(ids) && forall j :: j in ids ==> j == i
    ensures |ids| <= 1
  {
    assert forall k :: 0 <= k < |ids| ==> ids[k] in ids;
    if |ids| > 1 {
      TwoSame(ids, i);
    }
  }

  lemma {:induction false} TwoSame(ids: seq<nat>, i: nat)
    requires |ids| > 1 && forall k :: 0 <= k < |ids| ==> ids[k] == i
    ensures !NoDup(ids)
  {
    assert ids[0] == ids[1];
  }

  /**
   * Exactly when a capacity failure rejects, over runs. Let a forward of a reached state `s` fail for capacity, and
   * let clients act until its failure is processed in `w`. A planned request that is still unfinished is rejected if
   * and only if nobody can be preempted, that is, if every other resident of `s` is by then gone or finished.
   */
  lemma {:induction false} RejectedExactly(m: Model, cfg: Config, s0: Sys, before: seq<Event>, s: Sys,
                                           clients: seq<Event>, w: Sys, now: int, i: nat)
    requires FailedForward(m, cfg, s0, before, s, clients, w)
    requires i in ItemIds(s.phase.items) && !w.Get(i).Terminal()
    ensures w.phase.Landed? && (Post(cfg, w, now).Get(i).rejected <==> !CanPreempt(w))
    ensures !CanPreempt(w) <==> OthersOut(s, w, i)
  {
    hide Post, CanPreempt, ExecuteStep, OthersOut;
    FailedForwardFacts(m, cfg, s0, before, s, clients, w);
    PlannedResident(m, cfg, w, i);
    PostRejects(cfg, w, now, i);
    SoleLiving(s, w, i);
  }

  lemma {:induction false} PlannedResident(m: Model, cfg: Config, w: Sys, i: nat)
    requires Inv(m, cfg, w) && w.phase.Landed? && i in ItemIds(w.phase.items)
    ensures NoDup(w.active) && i in w.active && i < |w.reqs|
    ensures RejectedOk(PointOf(w)) && !w.reqs[i].Terminal() ==> !w.reqs[i].rejected
  {
    hide Cache.Valid, Agrees;
    var items := w.phase.items;
    var k :| 0 <= k < |items| && items[k].id == i;
    assert ItemInFlight(m, cfg, w, items[k], ModeOf(w.phase.outcome));
  }

  /**
   * A request whose prompt and output fit the pool never fails for capacity alone; so it is rejected exactly when
   * there were other residents and all of them are gone or finished when the failure is processed.
   */
  lemma {:induction false} FittingRejectedExactly(m: Model, cfg: Config, s0: Sys, before: seq<Event>, s: Sys,
                                                  clients: seq<Event>, w: Sys, now: int, i: nat)
    requires FailedForward(m, cfg, s0, before, s, clients, w)
    requires i in ItemIds(s.phase.items) && i < |s.reqs| && !w.Get(i).Terminal()
    requires BlocksFor(s.cache.size, Cap(s.reqs[i])) <= s.cache.alloc.total
    ensures w.phase.Landed? && (Post(cfg, w, now).Get(i).rejected <==> OthersOut(s, w, i))
    ensures exists j :: j in s.active && j != i
  {
    RejectedExactly(m, cfg, s0, before, s, clients, w, now, i);
    FailedForwardFacts(m, cfg, s0, before, s, clients, w);
    hide Post, CanPreempt, OthersOut, RejectedOk, FailedForward;
    assert ExecuteStep(m, cfg, s, s.phase.items).phase.outcome.CapacityError? by {
      FailedOutcome(m, cfg, s0, before, s, clients, w);
    }
    SoleFits(m, cfg, s, i);
  }

  lemma {:induction false} FailedOutcome(m: Model, cfg: Config, s0: Sys, before: seq<Event>, s: Sys,
                                         clients: seq<Event>, w: Sys)
    requires FailedForward(m, cfg, s0, before, s, clients, w)
    ensures s.phase.Planned? && ExecuteStep(m, cfg, s, s.phase.items).phase.outcome.CapacityError?
  {
  }

  lemma {:induction false} SoleFits(m: Model, cfg: Config, s: Sys, i: nat)
    requires Inv(m, cfg, s) && WorkOk(cfg, PointOf(s)) && s.phase.Planned? && i in ItemIds(s.phase.items)
    requires i < |s.reqs|
    requires ExecuteStep(m, cfg, s, s.phase.items).phase.outcome.CapacityError?
    requires BlocksFor(s.cache.size, Cap(s.reqs[i])) <= s.cache.alloc.total
    ensures exists j :: j in s.active && j != i
  {
    hide Execute, Cache.Valid, Agrees, WorkOk;
    var items := s.phase.items;
    var k :| 0 <= k < |items| && items[k].id == i;
    assert ItemInFlight(m, cfg, s, items[k], Unfed);
    if forall j :: j in s.active ==> j == i {
      OnlyOne(s.active, i);
      assert s.active == [i];
      SoleCapacityExactly(m, cfg, s, items, i);
      ItemUnderCap(m, cfg, s, items[0]);
      BlocksForMonotone(s.cache.size, items[0].End(), Cap(s.reqs[i]));
      assert false;
    }
  }

  /**
   * If no resident has gone or finished meanwhile, a planned request is rejected if and only if it was the only
   * resident; and then its own blocks for the position it had to reach exceed the pool.
   */
  lemma {:induction false} RejectionGenuine(m: Model, cfg: Config, s0: Sys, before: seq<Event>, s: Sys,
                                            clients: seq<Event>, w: Sys, now: int, i: nat)
    requires FailedForward(m, cfg, s0, before, s, clients, w) && i in ItemIds(s.phase.items)
    requires forall j :: j in s.active ==> j in w.active && !w.Get(j).Terminal()
    ensures w.phase.Landed? && (Post(cfg, w, now).Get(i).rejected <==> s.active == [i])
    ensures s.active == [i] ==>
      s.phase.items != [] && BlocksFor(s.cache.size, s.phase.items[0].End()) > s.cache.alloc.total
  {
    hide Post, CanPreempt, RejectedOk, FailedForward, Inv, WorkOk, ExecuteStep, NoDup, OthersOut, BlocksFor;
    FailedOutcome(m, cfg, s0, before, s, clients, w);
    FailedForwardFacts(m, cfg, s0, before, s, clients, w);
    PlannedResident(m, cfg, w, i);
    RejectedExactly(m, cfg, s0, before, s, clients, w, now, i);
    SoleExceeds(m, cfg, s, i);
    NobodyOut(s, w, i);
  }

  lemma {:induction false} NobodyOut(s: Sys, w: Sys, i: nat)
    requires forall j :: j in s.active ==> j in w.active && !w.Get(j).Terminal()
    ensures OthersOut(s, w, i) <==> forall j :: j in s.active ==> j == i
  {
  }

  lemma {:induction false} SoleExceeds(m: Model, cfg: Config, s: Sys, i: nat)
    requires Inv(m, cfg, s) && s.phase.Planned? && ExecuteStep(m, cfg, s, s.phase.items).phase.outcome.CapacityError?
    ensures s.active == [i] ==>
      s.phase.items != [] && BlocksFor(s.cache.size, s.phase.items[0].End()) > s.cache.alloc.total
    ensures (forall j :: j in s.active ==> j == i) && i in s.active ==> s.active == [i]
  {
    hide Execute, Cache.Valid, Agrees;
    if s.active == [i] {
      SoleCapacityExactly(m, cfg, s, s.phase.items, i);
    }
    if (forall j :: j in s.active ==> j == i) && i in s.active {
      OnlyOne(s.active, i);
    }
  }
}
