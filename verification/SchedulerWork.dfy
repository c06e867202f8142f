/** Bounded work: tokens executed and forwards, over every run. */
module SchedulerWork {
  import opened Lists
  import opened Transformer
  import opened KvCache
  import opened Packing
  import opened Runner
  import opened Scheduling
  import opened SchedulerCore
  import opened SchedulerPlan
  import opened SchedulerRun
  import opened SchedulerMoves
  import opened SchedulerStreams
  import opened SchedulerCounts
  import opened SchedulerThrash

  /** The most tokens of a request that can ever be fed: everything but its last output. */
  function Cap(r: Req): nat {
    |r.prompt| + (if r.maxOut >= 1 then r.maxOut else 1) - 1
  }

  lemma {:induction false} CapCovers(m: Model, cfg: Config, r: Req)
    requires Faithful(m, cfg, r) && !r.state.Completed?
    ensures |r.Known()| <= Cap(r)
  {
    assert r.generated != [] ==> |r.generated| < r.maxOut;
  }

  /** A request's work: what it is fed stays under its cap, and each residency executes at most that much. */
  ghost predicate ReqWork(cfg: Config, r: Req) {
    && |r.prompt| + r.maxOut <= cfg.maxModelLen
    && (r.state.Completed? ==> r.finalized > 0)
    && r.fed <= Cap(r) && r.executed <= r.preemptions * Cap(r) + r.fed
  }

  function Executed(): Req -> nat {
    (r: Req) => r.executed
  }

  ghost predicate WorkOk(cfg: Config, a: Point) {
    (forall i :: 0 <= i < |a.s.reqs| ==> ReqWork(cfg, a.s.reqs[i])) && a.s.metrics.tokens == Total(a.s.reqs, Executed())
  }

  /** What a single-record move does to the fields the work bound depends on. */
  lemma {:induction false} RecordWork(cfg: Config, a: Point, v: Move)
    requires OneRecord(v) && TouchedId(a, v) < |a.s.reqs|
    ensures var r, r' := a.s.reqs[TouchedId(a, v)], NewRecord(cfg, a, v);
      && r'.prompt == r.prompt && r'.maxOut == r.maxOut && r'.executed == r.executed
      && (!v.MAdmit? && !v.MEvict? ==> r'.fed == r.fed && r'.preemptions == r.preemptions)
      && (v.MEvict? ==> r'.fed == 0 && r'.preemptions == r.preemptions + 1)
      && (v.MAdmit? ==> r'.preemptions == r.preemptions)
      && (r'.state.Completed? ==> (r.state.Completed? && r'.finalized >= r.finalized) || r'.finalized > 0 || v.MEnd?)
  {
    var r := a.s.reqs[TouchedId(a, v)];
    match v
    case MDrain(_, now) => DrainedOnlyStream(r, cfg.streamCapacity, now);
    case MEnd(_, state, rejected, now) => FinalOnlyStream(r.(state := state, rejected := rejected), cfg.streamCapacity,
      now);
    case MFinal(now) => FinalOnlyStream(r, cfg.streamCapacity, now);
    case MToken(token, now) =>
      TokenOnlyStream(r, token, cfg.streamCapacity, now);
      FinalOnlyStream(WithToken(r, token, cfg.streamCapacity, now), cfg.streamCapacity, now);
    case _ =>
  }

  lemma {:induction false} EvictedWork(pre: nat, cap: nat, fed: nat, executed: nat)
    requires fed <= cap && executed <= pre * cap + fed
    ensures executed <= (pre + 1) * cap
  {
  }

  lemma {:induction false} RestoredLength(c: Cache, i: nat, prompt: seq<Token>)
    ensures c.Restore(i, prompt).1 <= |prompt|
  {
  }

  lemma {:induction false} NewRecordWork(m: Model, cfg: Config, a: Point, v: Move)
    requires Tidy(a) && Guard(m, cfg, a, v) && OneRecord(v) && TouchedId(a, v) < |a.s.reqs|
    requires ReqWork(cfg, a.s.reqs[TouchedId(a, v)])
    requires v.MAdmit? ==> a.s.reqs[TouchedId(a, v)].fed == 0 && a.s.reqs[TouchedId(a, v)].prompt != []
    ensures ReqWork(cfg, NewRecord(cfg, a, v))
  {
    RecordWork(cfg, a, v);
    var i := TouchedId(a, v);
    var r := a.s.reqs[i];
    if v.MEvict? {
      EvictedWork(r.preemptions, Cap(r), r.fed, r.executed);
    } else if v.MAdmit? {
      RestoredLength(a.s.cache.Reserve0(i), i, r.prompt);
    } else if v.MEnd? {
      FinalOnlyStream(r.(state := v.state, rejected := v.rejected), cfg.streamCapacity, v.now);
    }
  }

  lemma {:induction false} OneRecordWork(m: Model, cfg: Config, a: Point, v: Move)
    requires Tidy(a) && Guard(m, cfg, a, v) && OneRecord(v) && WorkOk(cfg, a)
    requires v.MAdmit? ==> TouchedId(a, v) < |a.s.reqs|
    requires v.MAdmit? ==> a.s.reqs[TouchedId(a, v)].fed == 0 && a.s.reqs[TouchedId(a, v)].prompt != []
    ensures WorkOk(cfg, Moved(cfg, a, v))
  {
    TouchedExists(m, cfg, a, v);
    Touch(cfg, a, v);
    MetricsAfter(cfg, a, v);
    RecordWork(cfg, a, v);
    var i := TouchedId(a, v);
    NewRecordWork(m, cfg, a, v);
    TotalUpdate(a.s.reqs, Executed(), i, NewRecord(cfg, a, v));
    TokensUncounted(a.s.metrics, NewRecord(cfg, a, v));
  }

  lemma {:induction false} WaitingFresh(m: Model, cfg: Config, a: Point)
    requires Ok(m, cfg, a) && a.s.waiting != []
    ensures a.s.waiting[0] < |a.s.reqs| && a.s.reqs[a.s.waiting[0]].fed == 0 && a.s.reqs[a.s.waiting[0]].prompt != []
  {
    assert a.s.waiting[0] in a.s.waiting && Faithful(m, cfg, a.s.reqs[a.s.waiting[0]]);
  }

  lemma {:induction false} TokensUncounted(k: Metrics, r: Req)
    ensures Counted(k, r).tokens == k.tokens && Counted(k, r).plans == k.plans && Counted(k, r).preempted == k.preempted
  {
  }

  // -- landing ------------------------------------------------------------------------------------

  lemma {:induction false} FedTotal(s: Sys, items: seq<BatchItem>)
    requires forall k :: 0 <= k < |items| ==> items[k].id < |s.reqs|
    ensures var s' := FedAll(s, items);
      |s'.reqs| == |s.reqs| && Total(s'.reqs, Executed()) == Total(s.reqs, Executed()) + TokenCount(items)
  {
    hide BatchItem.End;
    if items != [] {
      var n := |items| - 1;
      FedTotal(s, items[..n]);
      var mid := FedAll(s, items[..n]);
      var r := mid.Get(items[n].id);
      TotalUpdate(mid.reqs, Executed(), items[n].id,
        r.(fed := items[n].End(), executed := r.executed + |items[n].tokens|));
    }
  }

  lemma {:induction false} FedReqWork(m: Model, cfg: Config, s: Sys, item: BatchItem)
    requires ItemInFlight(m, cfg, s, item, Unfed) && item.id < |s.reqs| && s.reqs[item.id].finalized == 0
    requires Faithful(m, cfg, s.reqs[item.id]) && ReqWork(cfg, s.reqs[item.id])
    ensures var r := s.reqs[item.id]; ReqWork(cfg, r.(fed := item.End(), executed := r.executed + |item.tokens|))
  {
    CapCovers(m, cfg, s.reqs[item.id]);
  }

  lemma {:induction false} LandedWork(m: Model, cfg: Config, s: Sys, s': Sys, items: seq<BatchItem>)
    requires FedRecords(s, s', items) && AllFaithful(m, cfg, s)
    requires (forall i :: 0 <= i < |s.reqs| ==> ReqWork(cfg, s.reqs[i]))
    requires forall k :: 0 <= k < |items| ==>
      ItemInFlight(m, cfg, s, items[k], Unfed) && s.Get(items[k].id).finalized == 0
    ensures forall i :: 0 <= i < |s.reqs| ==> ReqWork(cfg, s'.reqs[i])
  {
    hide Faithful, ReqWork, ItemInFlight;
    forall i | 0 <= i < |s.reqs| ensures ReqWork(cfg, s'.reqs[i]) {
      if i in ItemIds(items) {
        var k :| 0 <= k < |items| && items[k].id == i;
        FedReqWork(m, cfg, s, items[k]);
      }
    }
  }

  lemma {:induction false} LandWork(m: Model, cfg: Config, a: Point, outcome: Outcome, cache: Cache)
    requires Core(m, cfg, a.s, a.items, Unfed) && Tidy(a) && WorkOk(cfg, a)
    ensures var s' := FedAll(a.s, a.items);
      && (forall i :: 0 <= i < |s'.reqs| ==> ReqWork(cfg, s'.reqs[i]))
      && s'.metrics == a.s.metrics && Total(s'.reqs, Executed()) == a.s.metrics.tokens + TokenCount(a.items)
  {
    FedAllFacts(a.s, a.items);
    FedTotal(a.s, a.items);
    forall k | 0 <= k < |a.items|
      ensures ItemInFlight(m, cfg, a.s, a.items[k], Unfed) && a.s.Get(a.items[k].id).finalized == 0 {
      assert a.items[k].id in a.s.active;
    }
    LandedWork(m, cfg, a.s, FedAll(a.s, a.items), a.items);
  }

  lemma {:induction false} SubmitWork(cfg: Config, a: Point, v: Move)
    requires WorkOk(cfg, a) && v.MSubmit?
    ensures WorkOk(cfg, Moved(cfg, a, v))
  {
    TotalSnoc(a.s.reqs, Executed(), NewRequest(v.prompt, v.maxOut, v.eos, v.now));
  }

  lemma {:induction false} SingleWork(m: Model, cfg: Config, a: Point, v: Move)
    requires Ok(m, cfg, a) && Guard(m, cfg, a, v) && OneRecord(v) && WorkOk(cfg, a)
    ensures WorkOk(cfg, Moved(cfg, a, v))
  {
    OkTidy(m, cfg, a);
    if v.MAdmit? {
      WaitingFresh(m, cfg, a);
    }
    OneRecordWork(m, cfg, a, v);
  }

  lemma {:induction false} LandMove(m: Model, cfg: Config, a: Point, v: Move)
    requires Ok(m, cfg, a) && Guard(m, cfg, a, v) && v.MLand? && WorkOk(cfg, a)
    ensures WorkOk(cfg, Moved(cfg, a, v))
  {
    hide Core, FedAll, ReqWork;
    OkTidy(m, cfg, a);
    LandWork(m, cfg, a, v.outcome, v.cache);
  }

  lemma {:induction false} WorkMove(m: Model, cfg: Config, a: Point, v: Move)
    requires Ok(m, cfg, a) && Guard(m, cfg, a, v) && WorkOk(cfg, a)
    ensures WorkOk(cfg, Moved(cfg, a, v))
  {
    if OneRecord(v) {
      SingleWork(m, cfg, a, v);
    } else if v.MLand? {
      LandMove(m, cfg, a, v);
    } else if v.MSubmit? {
      SubmitWork(cfg, a, v);
    }
  }

  lemma {:induction false} WorkClosed(m: Model, cfg: Config)
    ensures Closed(m, cfg, (a: Point) => WorkOk(cfg, a))
  {
    var P := (a: Point) => WorkOk(cfg, a);
    forall a, v | Enabled(m, cfg, a, v) && P(a) ensures P(Moved(cfg, a, v)) {
      WorkMove(m, cfg, a, v);
    }
  }

  // -- forwards -------------------------------------------------------------------------------------

  /** Request `k` is terminal and has no item left to be processed. */
  ghost predicate Out(reqs: seq<Req>, ids: seq<nat>, k: nat) {
    k < |reqs| && reqs[k].Terminal() && k !in ids
  }

  ghost function OutCount(reqs: seq<Req>, ids: seq<nat>): nat {
    if reqs == [] then 0 else
    OutCount(reqs[..|reqs| - 1], ids) + if Out(reqs, ids, |reqs| - 1) then 1 else 0
  }

  /** Nobody comes back, and `k`, if given, is newly out. */
  lemma {:induction false} OutGrows(reqs: seq<Req>, ids: seq<nat>, reqs': seq<Req>, ids': seq<nat>, k: Option<nat>)
    requires |reqs| <= |reqs'| && forall j: nat :: Out(reqs, ids, j) ==> Out(reqs', ids', j)
    requires k.Some? ==> Out(reqs', ids', k.value) && !Out(reqs, ids, k.value)
    ensures OutCount(reqs, ids) + (if k.Some? then 1 else 0) <= OutCount(reqs', ids')
    decreases |reqs'|
  {
    if reqs' != [] {
      var n := |reqs'| - 1;
      var short := if |reqs| == |reqs'| then reqs[..n] else reqs;
      var rest := if k.Some? && k.value < n then k else None;
      forall j: nat | Out(short, ids, j) ensures Out(reqs'[..n], ids', j) {
        assert Out(reqs, ids, j);
      }
      OutGrows(short, ids, reqs'[..n], ids', rest);
    }
  }

  lemma {:induction false} OutAtMost(reqs: seq<Req>, ids: seq<nat>)
    ensures OutCount(reqs, ids) <= |reqs|
  {
    if reqs != [] {
      OutAtMost(reqs[..|reqs| - 1], ids);
    }
  }

  /** A forward that executed nothing is paid for once its plan has been processed. */
  function Debt(a: Point): nat {
    if a.items == [] || a.s.phase.Planned? || a.mode.Fed? then 0 else 1
  }

  /** Each forward executes a token, or costs a preemption, or ends a request. */
  ghost predicate PlansOk(a: Point) {
    && a.s.metrics.plans <= a.s.metrics.tokens + a.s.metrics.preempted + OutCount(a.s.reqs, ItemIds(a.items)) + Debt(a)
    && forall k :: 0 <= k < |a.items| ==> a.items[k].tokens != []
  }

  lemma {:induction false} MetricsOne(cfg: Config, a: Point, v: Move)
    requires OneRecord(v) && TouchedId(a, v) < |a.s.reqs|
    requires v.MAdmit? ==> a.s.waiting != [] && a.s.cache.CanReserve(a.s.waiting[0], 0)
    ensures var k, k' := a.s.metrics, Moved(cfg, a, v).s.metrics;
      k'.plans == k.plans && k'.tokens == k.tokens && k'.preempted == k.preempted + if v.MEvict? then 1 else 0
  {
    MetricsAfter(cfg, a, v);
    TokensUncounted(a.s.metrics, NewRecord(cfg, a, v));
  }

  /** A single-record move leaves phase and mode alone. */
  lemma {:induction false} PhaseOne(cfg: Config, a: Point, v: Move)
    requires OneRecord(v)
    ensures Moved(cfg, a, v).s.phase == a.s.phase && Moved(cfg, a, v).mode == a.mode
  {
  }

  lemma {:induction false} NotAmong(items: seq<BatchItem>, i: nat)
    requires forall k :: 0 <= k < |items| ==> items[k].id != i
    ensures i !in ItemIds(items)
  {
  }

  /** Terminal requests stay so, and no item appears. */
  lemma {:induction false} OutKept(m: Model, cfg: Config, a: Point, v: Move)
    requires Tidy(a) && Guard(m, cfg, a, v) && OneRecord(v)
    ensures var b := Moved(cfg, a, v);
      && |b.s.reqs| == |a.s.reqs|
      && (forall k :: 0 <= k < |b.items| ==> b.items[k] in a.items)
      && forall j: nat :: Out(a.s.reqs, ItemIds(a.items), j) ==> Out(b.s.reqs, ItemIds(b.items), j)
  {
    MovesOnTheLiving(m, cfg, a, v);
    AdmitReady(m, cfg, a, v);
    hide Guard, Moved, NewRecord, Tidy;
    Touch(cfg, a, v);
    NewRecordEvolved(cfg, a, v);
    ItemsAfter(m, cfg, a, v);
    var b := Moved(cfg, a, v);
    forall j: nat | Out(a.s.reqs, ItemIds(a.items), j) ensures j !in ItemIds(b.items) {
      forall k | 0 <= k < |b.items| ensures b.items[k].id != j {
        var u :| 0 <= u < |a.items| && a.items[u] == b.items[k];
        assert ItemIds(a.items)[u] == a.items[u].id;
      }
      NotAmong(b.items, j);
    }
  }

  /** When a failed plan's last item goes, its request is newly out. */
  lemma {:induction false} HeadOut(m: Model, cfg: Config, a: Point, v: Move)
    requires Tidy(a) && Guard(m, cfg, a, v) && (v.MEnd? || v.MFinal?) && a.items != [] && Moved(cfg, a, v).items == []
    ensures var i := a.items[0].id; Out(Moved(cfg, a, v).s.reqs, [], i) && !Out(a.s.reqs, ItemIds(a.items), i)
  {
    TouchedExists(m, cfg, a, v);
    Touch(cfg, a, v);
    assert ItemIds(a.items)[0] == a.items[0].id;
    var r := a.s.reqs[TouchedId(a, v)];
    if v.MEnd? {
      FinalOnlyStream(r.(state := v.state, rejected := v.rejected), cfg.streamCapacity, v.now);
    } else {
      FinalOnlyStream(r, cfg.streamCapacity, v.now);
    }
  }

  lemma {:induction false} PlansOne(m: Model, cfg: Config, a: Point, v: Move)
    requires Tidy(a) && Guard(m, cfg, a, v) && OneRecord(v) && PlansOk(a)
    ensures PlansOk(Moved(cfg, a, v))
  {
    TouchedExists(m, cfg, a, v);
    MetricsOne(cfg, a, v);
    PhaseOne(cfg, a, v);
    OutKept(m, cfg, a, v);
    var b := Moved(cfg, a, v);
    var newly := if Debt(a) == 1 && Debt(b) == 0 && !v.MEvict? then Some(a.items[0].id) else None;
    if newly.Some? {
      LastItemGoes(m, cfg, a, v);
      HeadOut(m, cfg, a, v);
    }
    OutGrows(a.s.reqs, ItemIds(a.items), b.s.reqs, ItemIds(b.items), newly);
  }

  lemma {:induction false} LastItemGoes(m: Model, cfg: Config, a: Point, v: Move)
    requires Guard(m, cfg, a, v) && OneRecord(v) && Debt(a) == 1 && Debt(Moved(cfg, a, v)) == 0 && !v.MEvict?
    ensures (v.MEnd? || v.MFinal?) && Moved(cfg, a, v).items == []
  {
  }

  lemma {:induction false} TokenCountPositive(items: seq<BatchItem>)
    requires items != [] && forall k :: 0 <= k < |items| ==> items[k].tokens != []
    ensures TokenCount(items) > 0
  {
  }

  lemma {:induction false} PlansLand(m: Model, cfg: Config, a: Point, v: Move)
    requires Tidy(a) && Guard(m, cfg, a, v) && v.MLand? && PlansOk(a)
    ensures PlansOk(Moved(cfg, a, v))
  {
    LandRecords(a, v.outcome, v.cache, v.ran);
    TokenCountPositive(a.items);
    OutGrows(a.s.reqs, ItemIds(a.items), Moved(cfg, a, v).s.reqs, ItemIds(a.items), None);
  }

  lemma {:induction false} PlansPlan(m: Model, cfg: Config, a: Point)
    requires Tidy(a) && Guard(m, cfg, a, MPlan) && PlansOk(a)
    ensures PlansOk(Moved(cfg, a, MPlan))
  {
    PlanGuarantees(cfg, a.s);
    var items := BuildPlan(cfg, a.s);
    forall j: nat | Out(a.s.reqs, [], j) ensures Out(a.s.reqs, ItemIds(items), j) {
      forall k | 0 <= k < |items| ensures items[k].id != j {
        assert NextSlice(a.s, items[k]);
      }
      NotAmong(items, j);
    }
    assert ItemIds([]) == [];
    assert forall k :: 0 <= k < |items| ==> NextSlice(a.s, items[k]);
    OutGrows(a.s.reqs, [], a.s.reqs, ItemIds(items), None);
  }

  lemma {:induction false} PlansSkip(m: Model, cfg: Config, a: Point)
    requires Tidy(a) && Guard(m, cfg, a, MSkip) && PlansOk(a)
    ensures PlansOk(Moved(cfg, a, MSkip))
  {
    var b, i := Moved(cfg, a, MSkip), a.items[0].id;
    assert ItemIds(a.items) == [i] + ItemIds(b.items);
    NoDupConcat([i], ItemIds(b.items));
    OutGrows(a.s.reqs, ItemIds(a.items), a.s.reqs, ItemIds(b.items), Some(i));
  }

  lemma {:induction false} PlansSubmit(cfg: Config, a: Point, v: Move)
    requires Tidy(a) && v.MSubmit? && PlansOk(a)
    ensures PlansOk(Moved(cfg, a, v))
  {
    OutGrows(a.s.reqs, ItemIds(a.items), Moved(cfg, a, v).s.reqs, ItemIds(a.items), None);
  }

  lemma {:induction false} PlansMove(m: Model, cfg: Config, a: Point, v: Move)
    requires Tidy(a) && Guard(m, cfg, a, v) && PlansOk(a)
    ensures PlansOk(Moved(cfg, a, v))
  {
    if OneRecord(v) {
      PlansOne(m, cfg, a, v);
    } else {
      match v
      case MLand(_, _, _) => PlansLand(m, cfg, a, v);
      case MPlan => PlansPlan(m, cfg, a);
      case MSkip => PlansSkip(m, cfg, a);
      case MSubmit(_, _, _, _) => PlansSubmit(cfg, a, v);
      case MIdle =>
    }
  }

  lemma {:induction false} PlansClosed(m: Model, cfg: Config)
    ensures Closed(m, cfg, (a: Point) => PlansOk(a))
  {
    var P := (a: Point) => PlansOk(a);
    forall a, v | Enabled(m, cfg, a, v) && P(a) ensures P(Moved(cfg, a, v)) {
      OkTidy(m, cfg, a);
      PlansMove(m, cfg, a, v);
    }
  }

  // -- the bounds -----------------------------------------------------------------------------------------

  lemma {:induction false} TotalWork(cfg: Config, reqs: seq<Req>, most: nat)
    requires forall i :: 0 <= i < |reqs| ==> ReqWork(cfg, reqs[i]) && Cap(reqs[i]) <= most
    ensures Total(reqs, Executed()) <= (|reqs| + Total(reqs, (r: Req) => r.preemptions)) * most
  {
    if reqs != [] {
      var n := |reqs| - 1;
      TotalWork(cfg, reqs[..n], most);
      var r := reqs[n];
      Residencies(r.preemptions, Cap(r), most, r.fed, r.executed);
      assert (|reqs| + Total(reqs, (q: Req) => q.preemptions)) ==
             (n + Total(reqs[..n], (q: Req) => q.preemptions)) + (1 + r.preemptions);
      Spread(n + Total(reqs[..n], (q: Req) => q.preemptions), 1 + r.preemptions, most);
    }
  }

  lemma {:induction false} Spread(a: nat, b: nat, k: nat)
    ensures (a + b) * k == a * k + b * k
  {
  }

  lemma {:induction false} Residencies(pre: nat, cap: nat, most: nat, fed: nat, executed: nat)
    requires fed <= cap <= most && executed <= pre * cap + fed
    ensures executed <= (1 + pre) * most
  {
    assert pre * cap <= pre * most;
  }

  /**
   * Bounded work over every run: the tokens run through the model are those of the requests' residencies, at
   * most one more residency per preemption; when every request asks for at least one token, at most
   * (N + preemptions) * (max_model_len - 1) in all. Each forward executes a token, costs a preemption or ends
   * a request, so finitely many submissions cause finitely many forwards.
   */
  lemma {:induction false} WorkOverRuns(m: Model, cfg: Config, s: Sys, events: seq<Event>)
    requires Initial(m, s)
    ensures var s' := Run(m, cfg, s, events);
      && (forall i :: 0 <= i < |s'.reqs| ==> s'.reqs[i].executed <= (1 + s'.reqs[i].preemptions) * Cap(s'.reqs[i]))
      && s'.metrics.tokens == Total(s'.reqs, Executed())
      && ((forall i :: 0 <= i < |s'.reqs| ==> s'.reqs[i].maxOut >= 1) ==>
            s'.metrics.tokens <= (|s'.reqs| + s'.metrics.preempted) * (cfg.maxModelLen - 1))
      && s'.metrics.plans <= s'.metrics.tokens + s'.metrics.preempted + |s'.reqs| + 1
  {
    hide Run, WorkOk, PlansOk, CountersOk;
    WorkAtEnd(m, cfg, s, events);
    PlansAtEnd(m, cfg, s, events);
    CountersAtEnd(m, cfg, s, events);
    WorkBounds(cfg, PointOf(Run(m, cfg, s, events)));
  }

  lemma {:induction false} WorkAtEnd(m: Model, cfg: Config, s: Sys, events: seq<Event>)
    requires Initial(m, s)
    ensures WorkOk(cfg, PointOf(Run(m, cfg, s, events)))
  {
    InitialInv(m, cfg, s);
    WorkClosed(m, cfg);
    RunKeeps(m, cfg, (a: Point) => WorkOk(cfg, a), s, events);
  }

  lemma {:induction false} PlansAtEnd(m: Model, cfg: Config, s: Sys, events: seq<Event>)
    requires Initial(m, s)
    ensures PlansOk(PointOf(Run(m, cfg, s, events)))
  {
    InitialInv(m, cfg, s);
    PlansClosed(m, cfg);
    RunKeeps(m, cfg, (a: Point) => PlansOk(a), s, events);
  }

  /** N submissions of at least one token each cause at most 3N(max_model_len - 1) + 3N + 1 forwards. */
  lemma {:induction false} ForwardsOverRuns(m: Model, cfg: Config, s: Sys, events: seq<Event>)
    requires Initial(m, s)
    requires forall i :: 0 <= i < |Run(m, cfg, s, events).reqs| ==> Run(m, cfg, s, events).reqs[i].maxOut >= 1
    ensures var s' := Run(m, cfg, s, events);
      s'.metrics.plans <= 3 * |s'.reqs| * (cfg.maxModelLen - 1) + 3 * |s'.reqs| + 1
  {
    hide Run;
    WorkOverRuns(m, cfg, s, events);
    ThrashOverRuns(m, cfg, s, events);
    var s' := Run(m, cfg, s, events);
    Scaled(|s'.reqs| + s'.metrics.preempted, 3 * |s'.reqs|, cfg.maxModelLen - 1);
  }

  lemma {:induction false} Scaled(a: nat, b: nat, k: nat)
    requires a <= b
    ensures a * k <= b * k
  {
  }

  lemma {:induction false} WorkBounds(cfg: Config, a: Point)
    requires WorkOk(cfg, a) && PlansOk(a) && CountersOk(a)
    ensures forall i :: 0 <= i < |a.s.reqs| ==> a.s.reqs[i].executed <= (1 + a.s.reqs[i].preemptions) * Cap(a.s.reqs[i])
    ensures (forall i :: 0 <= i < |a.s.reqs| ==> a.s.reqs[i].maxOut >= 1) ==>
      a.s.metrics.tokens <= (|a.s.reqs| + a.s.metrics.preempted) * (cfg.maxModelLen - 1)
    ensures a.s.metrics.plans <= a.s.metrics.tokens + a.s.metrics.preempted + |a.s.reqs| + 1
  {
    forall i | 0 <= i < |a.s.reqs| ensures a.s.reqs[i].executed <= (1 + a.s.reqs[i].preemptions) * Cap(a.s.reqs[i]) {
      var r := a.s.reqs[i];
      Residencies(r.preemptions, Cap(r), Cap(r), r.fed, r.executed);
    }
    OutAtMost(a.s.reqs, ItemIds(a.items));
    if forall i :: 0 <= i < |a.s.reqs| ==> a.s.reqs[i].maxOut >= 1 {
      TotalWork(cfg, a.s.reqs, cfg.maxModelLen - 1);
    }
  }
}
