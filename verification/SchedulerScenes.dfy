/** Following one concrete run: what each step does to the few things that matter of a state. */
module SchedulerScenes {
  import opened Lists
  import opened Allocator
  import opened Transformer
  import opened KvCache
  import opened KvCacheValid
  import opened KvCacheContent
  import opened Packing
  import opened Runner
  import opened Scheduling
  import opened SchedulerCore
  import opened SchedulerPlan
  import opened SchedulerRun
  import opened SchedulerTight

  // -- a model with a known answer --------------------------------------------------------------

  function SuccessorPick(v: Vec): Token {
    if v == [] then 0 else v[0].Floor + 1
  }

  /** A model of any depth whose next token is the last one's successor. */
  function Successor(layers: nat): Model {
    Model(layers, (t: Token) => [t as real], (l: nat, h: Vec, p: nat) => ([], KV([], [])),
      (q: seq<Vec>, kvs: seq<KV>) => [], (l: nat, h: Vec, a: Vec) => h, SuccessorPick)
  }

  lemma {:induction false} SuccessorHidden(layers: nat, toks: seq<Token>, l: nat, p: nat)
    requires p < |toks|
    ensures Hidden(Successor(layers), toks, l, p) == [toks[p] as real]
    decreases l
  {
    if l > 0 {
      SuccessorHidden(layers, toks, l - 1, p);
    }
  }

  lemma {:induction false} SuccessorNext(layers: nat, toks: seq<Token>)
    requires toks != []
    ensures Next(Successor(layers), toks) == toks[|toks| - 1] + 1
  {
    SuccessorHidden(layers, toks, layers, |toks| - 1);
  }

  // -- scenes -----------------------------------------------------------------------------------

  datatype Brief = Brief(prompt: seq<Token>, maxOut: int, generated: seq<Token>, fed: nat, state: RequestState,
    returned: bool, rejected: bool)
  {
    function Known(): seq<Token> {
      prompt + generated
    }

    predicate Terminal() {
      state.Completed? || state.Cancelled? || state.TimedOut? || state.Failed?
    }
  }

  function BriefOf(r: Req): Brief {
    Brief(r.prompt, r.maxOut, r.generated, r.fed, r.state, r.preemptions > 0, r.rejected)
  }

  /** The records, the two lists, the phase and the shape of the pool; no prefix is retained. */
  datatype Scene = Scene(size: Positive, total: nat, reqs: seq<Brief>, waiting: seq<nat>, active: seq<nat>,
    phase: Phase) {
    function Get(i: nat): Brief {
      if i < |reqs| then reqs[i] else Brief([], 0, [], 0, Failed, false, false)
    }

    /** Something is left to feed. */
    predicate Runs(i: nat) {
      i < |reqs| && !Get(i).Terminal() && Get(i).fed < |Get(i).Known()|
    }
  }

  /** A record whose client keeps up and that has no end-of-sequence token; every clock reads zero. */
  ghost predicate Quiet(r: Req) {
    r.eos == None && r.arrival == 0 && r.pending == [] && r.stalled == None
  }

  ghost predicate Looks(s: Sys, v: Scene) {
    && s.cache.limit == 0 && s.cache.size == v.size && s.cache.alloc.total == v.total
    && |s.reqs| == |v.reqs| && (forall i :: 0 <= i < |s.reqs| ==> Quiet(s.reqs[i]) && BriefOf(s.reqs[i]) == v.reqs[i])
    && s.waiting == v.waiting && s.active == v.active && s.phase == v.phase
  }

  ghost predicate Shows(m: Model, cfg: Config, s: Sys, v: Scene) {
    Inv(m, cfg, s) && Looks(s, v)
  }

  /** No deadline passes at time zero, no stream fills, and there is room in queue and context. */
  ghost predicate Roomy(cfg: Config, queue: nat, context: nat) {
    cfg.queueTimeout >= 0 && cfg.streamCapacity <= 0 && cfg.maxQueue >= queue && cfg.maxModelLen >= context
  }

  function NewBrief(prompt: seq<Token>, maxOut: int): Brief {
    Brief(prompt, maxOut, [], 0, Waiting, false, false)
  }

  function Submitted(v: Scene, prompt: seq<Token>, maxOut: int): Scene {
    v.(reqs := v.reqs + [NewBrief(prompt, maxOut)], waiting := v.waiting + [|v.reqs|])
  }

  lemma {:induction false} SubmitShows(m: Model, cfg: Config, s: Sys, v: Scene, prompt: seq<Token>, maxOut: int)
    requires Shows(m, cfg, s, v) && prompt != [] && |prompt| + maxOut <= cfg.maxModelLen && |v.waiting| < cfg.maxQueue
    ensures Shows(m, cfg, Step(m, cfg, s, ESubmit(prompt, maxOut, None, 0)), Submitted(v, prompt, maxOut))
  {
    hide Inv, Step;
    StepInv(m, cfg, s, ESubmit(prompt, maxOut, None, 0));
    SubmitLooks(m, cfg, s, v, prompt, maxOut);
  }

  lemma {:induction false} SubmitLooks(m: Model, cfg: Config, s: Sys, v: Scene, prompt: seq<Token>, maxOut: int)
    requires Looks(s, v) && prompt != [] && |prompt| + maxOut <= cfg.maxModelLen && |v.waiting| < cfg.maxQueue
    ensures Looks(Step(m, cfg, s, ESubmit(prompt, maxOut, None, 0)), Submitted(v, prompt, maxOut))
  {
  }

  // -- an iteration -----------------------------------------------------------------------------

  lemma {:induction false} NothingReaped(cfg: Config, s: Sys, v: Scene, ids: seq<nat>)
    requires Looks(s, v) && cfg.queueTimeout >= 0
    ensures ReapWaiting(cfg, s, ids, 0) == s && ReapActive(cfg, s, ids, 0) == s && DrainStreams(cfg, s, ids, 0) == s
    decreases |ids|
  {
    hide TimeOut, Cancel;
    if ids != [] {
      assert ids[0] < |s.reqs| ==> Quiet(s.reqs[ids[0]]);
      NothingReaped(cfg, s, v, ids[1..]);
    }
  }

  /** Everybody waiting admitted. */
  function AllIn(v: Scene): Scene {
    v.(reqs := seq(|v.reqs|, i requires 0 <= i < |v.reqs| =>
                 if i in v.waiting then v.reqs[i].(state := Prefill, fed := 0) else v.reqs[i]),
       waiting := [], active := v.active + v.waiting)
  }

  function OneIn(v: Scene): Scene
    requires v.waiting != [] && v.waiting[0] < |v.reqs|
  {
    var i := v.waiting[0];
    v.(reqs := v.reqs[i := v.reqs[i].(state := Prefill, fed := 0)], waiting := v.waiting[1..], active := v.active + [i])
  }

  lemma {:induction false} AllInAfterOne(v: Scene)
    requires v.waiting != [] && v.waiting[0] < |v.reqs|
    ensures AllIn(OneIn(v)) == AllIn(v)
  {
    assert v.waiting == [v.waiting[0]] + v.waiting[1..];
    assert v.active + [v.waiting[0]] + v.waiting[1..] == v.active + v.waiting;
    assert AllIn(OneIn(v)).reqs == AllIn(v).reqs;
  }

  /** There is room for everybody waiting, and whoever returns after a preemption finds the residents gone. */
  ghost predicate AllAdmissible(cfg: Config, v: Scene) {
    |v.active| + |v.waiting| <= cfg.activeLimit &&
    forall k :: 0 <= k < |v.waiting| && v.Get(v.waiting[k]).returned ==> k == 0 && v.active == []
  }

  lemma {:induction false} OneAdmitted(m: Model, cfg: Config, s: Sys, v: Scene)
    requires Core(m, cfg, s, [], Unfed) && Looks(s, v) && v.waiting != []
    ensures v.waiting[0] < |v.reqs|
    ensures Looks(AdmitOne(cfg, s.(waiting := s.waiting[1..]), s.waiting[0], 0), OneIn(v))
  {
    var i := s.waiting[0];
    HeadKnown(m, cfg, s);
    ReserveFacts(s.cache, i);
    hide Core, Cache.Valid, Agrees, Fail;
    Reserved(s.cache, i, s.Get(i).prompt);
    AdmittedLooks(s, v, s.cache.Reserve(i, 0).Restore(i, s.Get(i).prompt).0);
  }

  lemma {:induction false} HeadKnown(m: Model, cfg: Config, s: Sys)
    requires Core(m, cfg, s, [], Unfed) && s.waiting != []
    ensures s.waiting[0] < |s.reqs| && s.waiting[0] !in s.cache.tables && s.cache.Valid()
  {
    assert s.waiting[0] in s.waiting;
  }

  lemma {:induction false} Reserved(c: Cache, i: nat, prompt: seq<Token>)
    requires c.limit == 0 && c.CanReserve(i, 0)
    ensures var (d, fed) := c.Reserve(i, 0).Restore(i, prompt);
      fed == 0 && d.limit == 0 && d.size == c.size && d.alloc.total == c.alloc.total
  {
  }

  lemma {:induction false} AdmittedLooks(s: Sys, v: Scene, cache: Cache)
    requires Looks(s, v) && v.waiting != [] && v.waiting[0] < |v.reqs|
    requires cache.limit == 0 && cache.size == s.cache.size && cache.alloc.total == s.cache.alloc.total
    ensures var i := s.waiting[0];
      Looks(s.(waiting := s.waiting[1..], cache := cache, active := s.active + [i]).Set(i,
        s.Get(i).(state := Prefill, fed := 0)), OneIn(v))
  {
  }

  lemma {:induction false} AllAdmitted(m: Model, cfg: Config, s: Sys, v: Scene)
    requires Core(m, cfg, s, [], Unfed) && Looks(s, v) && AllAdmissible(cfg, v)
    ensures Looks(AdmitWaiting(cfg, s, 0), AllIn(v)) && Core(m, cfg, AdmitWaiting(cfg, s, 0), [], Unfed)
    decreases |s.waiting|
  {
    hide Looks, Core, AllAdmissible, AdmitOne, Scene.Get;
    LooksLists(s, v);
    AdmitTurn(cfg, s, v);
    if s.waiting == [] {
      assert AllIn(v) == v;
    } else {
      OneAdmitted(m, cfg, s, v);
      AdmitOneCore(m, cfg, s, 0);
      AllInAfterOne(v);
      AdmissibleRest(cfg, v);
      hide AllIn, AdmitWaiting;
      LooksLists(AdmitOne(cfg, s.(waiting := s.waiting[1..]), s.waiting[0], 0), OneIn(v));
      AllAdmitted(m, cfg, AdmitOne(cfg, s.(waiting := s.waiting[1..]), s.waiting[0], 0), OneIn(v));
    }
  }

  lemma {:induction false} AdmitTurn(cfg: Config, s: Sys, v: Scene)
    requires Looks(s, v) && AllAdmissible(cfg, v)
    ensures AdmitWaiting(cfg, s, 0) ==
      if s.waiting == [] then s else AdmitWaiting(cfg, AdmitOne(cfg, s.(waiting := s.waiting[1..]), s.waiting[0], 0), 0)
    ensures s.waiting != [] ==> |s.active| < cfg.activeLimit && !Blocked(s, s.waiting[0])
  {
    hide AdmitOne;
    if s.waiting != [] {
      assert v.Get(v.waiting[0]).returned ==> v.active == [];
    }
  }

  lemma {:induction false} AdmissibleRest(cfg: Config, v: Scene)
    requires AllAdmissible(cfg, v) && v.waiting != [] && v.waiting[0] < |v.reqs|
    ensures AllAdmissible(cfg, OneIn(v))
  {
    var w := OneIn(v);
    forall k | 0 <= k < |w.waiting| ensures !w.Get(w.waiting[k]).returned {
      assert w.waiting[k] == v.waiting[k + 1];
      assert !v.Get(v.waiting[k + 1]).returned;
    }
  }

  lemma {:induction false} LooksLists(s: Sys, v: Scene)
    requires Looks(s, v)
    ensures s.waiting == v.waiting && s.active == v.active && s.phase == v.phase && |s.reqs| == |v.reqs|
  {
  }

  // -- one-token plans ----------------------------------------------------------------------------

  /** The candidate of a listed request. */
  function CandidateAt(v: Scene, i: nat): Candidate
    requires v.Runs(i)
  {
    var b := v.Get(i);
    var remaining := |b.Known()| - b.fed;
    Candidate(i, b.state.Decoding? && remaining == 1, remaining, |b.prompt|, |b.generated|, 0)
  }

  ghost predicate AllRun(v: Scene, ids: seq<nat>) {
    forall k :: 0 <= k < |ids| ==> v.Runs(ids[k])
  }

  function CandidatesAt(v: Scene, ids: seq<nat>): (cs: seq<Candidate>)
    requires AllRun(v, ids)
    ensures |cs| == |ids|
  {
    seq(|ids|, k requires 0 <= k < |ids| => CandidateAt(v, ids[k]))
  }

  lemma {:induction false} CandidatesShown(s: Sys, v: Scene, ids: seq<nat>)
    requires Looks(s, v) && AllRun(v, ids)
    ensures Candidates(s, ids) == CandidatesAt(v, ids)
  {
    if ids != [] {
      var n := |ids| - 1;
      CandidatesShown(s, v, ids[..n]);
      assert v.Runs(ids[n]);
      assert CandidatesAt(v, ids) == CandidatesAt(v, ids[..n]) + [CandidateAt(v, ids[n])];
    }
  }

  /** The next token of a request, as an item. */
  function OneToken(v: Scene, i: nat): BatchItem
    requires v.Runs(i)
  {
    var b := v.Get(i);
    BatchItem(i, [b.Known()[b.fed]], b.fed, b.fed + 1 == |b.Known()|, b.fed >= |b.prompt|)
  }

  function OneTokens(v: Scene, ids: seq<nat>): (items: seq<BatchItem>)
    requires AllRun(v, ids)
    ensures |items| == |ids|
  {
    seq(|ids|, k requires 0 <= k < |ids| => OneToken(v, ids[k]))
  }

  /** A slice of the request is one token when one is left to feed, to the chunk, or to the budget. */
  ghost predicate SliceOfOne(cfg: Config, v: Scene, i: nat, budget: int) {
    v.Runs(i) && (v.Get(i).fed + 1 == |v.Get(i).Known()| || cfg.chunk == 1 || budget == 1)
  }

  lemma {:induction false} OneTokenItem(cfg: Config, s: Sys, v: Scene, i: nat, budget: Positive)
    requires Looks(s, v) && SliceOfOne(cfg, v, i, budget)
    ensures s.Get(i).fed < |s.Get(i).Known()| && ItemFor(cfg, s, CandidateAt(v, i), budget) == OneToken(v, i)
  {
    assert BriefOf(s.reqs[i]) == v.reqs[i];
    var known, fed := s.reqs[i].Known(), s.reqs[i].fed;
    assert known[fed..fed + 1] == [known[fed]];
  }

  lemma {:induction false} OneTokenFill(cfg: Config, s: Sys, v: Scene, ids: seq<nat>, rest: seq<nat>, budget: nat)
    requires Looks(s, v) && AllRun(v, ids + rest) && |ids| <= budget && (rest == [] || |ids| == budget)
    requires forall k :: 0 <= k < |ids| ==> SliceOfOne(cfg, v, ids[k], budget - k)
    ensures AllRun(v, ids) && Fill(cfg, s, CandidatesAt(v, ids + rest), budget) == OneTokens(v, ids)
    decreases |ids|
  {
    hide Fill, Looks, OneToken, SliceOfOne, Scene.Runs, CandidateAt;
    assert forall k :: 0 <= k < |ids| ==> (ids + rest)[k] == ids[k];
    if ids != [] {
      assert SliceOfOne(cfg, v, ids[0], budget - 0);
      FillHead(cfg, s, v, ids + rest, budget);
      forall k | 0 <= k < |ids[1..]| ensures SliceOfOne(cfg, v, ids[1..][k], budget - 1 - k) {
        assert SliceOfOne(cfg, v, ids[k + 1], budget - (k + 1));
      }
      assert (ids + rest)[1..] == ids[1..] + rest;
      OneTokenFill(cfg, s, v, ids[1..], rest, budget - 1);
      assert OneTokens(v, ids) == [OneToken(v, ids[0])] + OneTokens(v, ids[1..]);
    } else {
      NothingFilled(cfg, s, CandidatesAt(v, ids + rest), budget);
    }
  }

  lemma {:induction false} NothingFilled(cfg: Config, s: Sys, cs: seq<Candidate>, budget: int)
    requires cs == [] || budget == 0
    ensures Fill(cfg, s, cs, budget) == []
  {
  }

  lemma {:induction false} FillHead(cfg: Config, s: Sys, v: Scene, ids: seq<nat>, budget: Positive)
    requires Looks(s, v) && AllRun(v, ids) && ids != [] && SliceOfOne(cfg, v, ids[0], budget)
    ensures AllRun(v, ids[1..])
    ensures Fill(cfg, s, CandidatesAt(v, ids), budget) == [OneToken(v, ids[0])] +
      Fill(cfg, s, CandidatesAt(v, ids[1..]), budget - 1)
  {
    var cs := CandidatesAt(v, ids);
    OneTokenItem(cfg, s, v, ids[0], budget);
    hide Looks, ItemFor, SliceOfOne, Fill;
    assert cs[1..] == CandidatesAt(v, ids[1..]) && cs[0].id == ids[0];
    FillTurnOf(cfg, s, cs, budget);
  }

  lemma {:induction false} SortedAlready(rank: Candidate -> seq<int>, cs: seq<Candidate>)
    requires Ordered(rank, cs)
    ensures Sorted(rank, cs) == cs
  {
    if cs != [] {
      var n := |cs| - 1;
      assert Ordered(rank, cs[..n]);
      SortedAlready(rank, cs[..n]);
      assert cs == cs[..n] + [cs[n]];
    }
  }

  /**
   * The policy ranks the residents `ids` and then `rest`, and the budget feeds one token to each of `ids` and
   * nothing to the others.
   */
  ghost predicate TakesOneEach(cfg: Config, v: Scene, ids: seq<nat>, rest: seq<nat>) {
    && AllRun(v, v.active) && AllRun(v, ids) && AllRun(v, ids + rest)
    && 0 < |ids| <= cfg.budget && (rest == [] || |ids| == cfg.budget)
    && Sorted(cfg.priority, CandidatesAt(v, v.active)) == CandidatesAt(v, ids + rest)
    && forall k :: 0 <= k < |ids| ==> SliceOfOne(cfg, v, ids[k], cfg.budget - k)
  }

  lemma {:induction false} OneTokenPlan(cfg: Config, s: Sys, v: Scene, ids: seq<nat>, rest: seq<nat>)
    requires Looks(s, v) && TakesOneEach(cfg, v, ids, rest)
    ensures BuildPlan(cfg, s) == OneTokens(v, ids)
  {
    hide Looks, Sorted, Fill;
    LooksLists(s, v);
    CandidatesShown(s, v, v.active);
    OneTokenFill(cfg, s, v, ids, rest, cfg.budget);
  }

  lemma {:induction false} IterateAdmits(m: Model, cfg: Config, s: Sys, v: Scene)
    requires Shows(m, cfg, s, v) && v.phase.Idle? && cfg.queueTimeout >= 0 && AllAdmissible(cfg, v)
    ensures var t := AdmitWaiting(cfg, s, 0);
      && Core(m, cfg, t, [], Unfed) && Looks(t, AllIn(v))
      && Step(m, cfg, s, EIterate(0)) ==
           t.(phase := if BuildPlan(cfg, t) == [] then Idle else Planned(BuildPlan(cfg, t)))
  {
    hide AdmitWaiting, BuildPlan, Core, AllAdmissible, Looks, AllIn, ReapWaiting, ReapActive, DrainStreams;
    LooksLists(s, v);
    AllAdmitted(m, cfg, s, v);
    NothingReaped(cfg, s, v, s.waiting);
    NothingReaped(cfg, s, v, s.active);
  }

  lemma {:induction false} IterateShows(m: Model, cfg: Config, s: Sys, v: Scene, ids: seq<nat>, rest: seq<nat>)
    requires Shows(m, cfg, s, v) && v.phase.Idle? && cfg.queueTimeout >= 0 && AllAdmissible(cfg, v)
    requires TakesOneEach(cfg, AllIn(v), ids, rest)
    ensures Shows(m, cfg, Step(m, cfg, s, EIterate(0)), AllIn(v).(phase := Planned(OneTokens(AllIn(v), ids))))
  {
    IterateAdmits(m, cfg, s, v);
    StepInv(m, cfg, s, EIterate(0));
    var t := AdmitWaiting(cfg, s, 0);
    OneTokenPlan(cfg, t, AllIn(v), ids, rest);
    PhaseLooks(t, AllIn(v), Planned(OneTokens(AllIn(v), ids)));
    hide Inv, Looks, AdmitWaiting, BuildPlan, Core, AllAdmissible, TakesOneEach, AllIn, OneTokens, Step;
  }

  lemma {:induction false} PhaseLooks(s: Sys, v: Scene, phase: Phase)
    requires Looks(s, v)
    ensures Looks(s.(phase := phase), v.(phase := phase))
  {
  }

  // -- the forward --------------------------------------------------------------------------------

  /** Blocks the listed requests hold between iterations. */
  function Held(v: Scene, ids: seq<nat>): nat {
    if ids == [] then 0 else Held(v, ids[..|ids| - 1]) + BlocksFor(v.size, v.Get(ids[|ids| - 1]).fed)
  }

  function Extra(v: Scene, item: BatchItem): nat {
    var held, need := BlocksFor(v.size, v.Get(item.id).fed), BlocksFor(v.size, item.End());
    if need <= held then 0 else need - held
  }

  function Extras(v: Scene, items: seq<BatchItem>): seq<nat> {
    seq(|items|, k requires 0 <= k < |items| => Extra(v, items[k]))
  }

  function Demand(v: Scene, items: seq<BatchItem>): nat {
    Held(v, v.active) + Sum(Extras(v, items))
  }

  lemma {:induction false} HeldShown(s: Sys, v: Scene, ids: seq<nat>)
    requires Looks(s, v) && forall k :: 0 <= k < |ids| ==> TableExact(s, ids[k]) && ids[k] < |s.reqs|
    ensures TableBlocks(s.cache, ids) == Held(v, ids)
  {
    if ids != [] {
      HeldShown(s, v, ids[..|ids| - 1]);
      assert TableExact(s, ids[|ids| - 1]);
    }
  }

  lemma {:induction false} DemandShown(m: Model, cfg: Config, s: Sys, v: Scene, items: seq<BatchItem>)
    requires Core(m, cfg, s, items, Unfed) && Looks(s, v)
    ensures TableBlocks(s.cache, s.active) + Sum(Additions(s.cache.size, s.cache.tables, Required(items))) ==
      Demand(v, items)
    ensures ListsResidents(s.cache, s.active)
  {
    hide Cache.Valid, Agrees, AllFaithful;
    forall k | 0 <= k < |s.active| ensures TableExact(s, s.active[k]) && s.active[k] < |s.reqs| {
      assert s.active[k] in s.active;
      assert Settled(s, s.active[k]);
    }
    HeldShown(s, v, s.active);
    forall k | 0 <= k < |items|
      ensures Missing(s.cache.size, s.cache.tables, Required(items)[k]) == Extra(v, items[k]) {
      ExtraShown(m, cfg, s, v, items, k);
    }
    assert Additions(s.cache.size, s.cache.tables, Required(items)) == Extras(v, items);
  }

  lemma {:induction false} ExtraShown(m: Model, cfg: Config, s: Sys, v: Scene, items: seq<BatchItem>, k: nat)
    requires Core(m, cfg, s, items, Unfed) && Looks(s, v) && k < |items|
    ensures Missing(s.cache.size, s.cache.tables, Required(items)[k]) == Extra(v, items[k])
  {
    hide Cache.Valid, Agrees, AllFaithful;
    assert ItemInFlight(m, cfg, s, items[k], Unfed);
    assert Settled(s, items[k].id);
  }

  /** A planned forward fails for capacity exactly when the blocks held and the blocks missing exceed the pool. */
  lemma {:induction false} FullShown(m: Model, cfg: Config, s: Sys, v: Scene, items: seq<BatchItem>)
    requires Shows(m, cfg, s, v) && v.phase == Planned(items)
    ensures s.cache.EnsureCapacity(Required(items)).0 == Some(Full) <==> Demand(v, items) > v.total
  {
    FlightPlan(m, cfg, s, items);
    RequiredIds(items);
    PlanTables(s.cache, Hist(s), items);
    DemandShown(m, cfg, s, v, items);
    assert s.cache.Valid();
    hide Cache.Valid, Agrees, Inv, Core;
    FullExactly(s.cache, Required(items), s.active);
  }

  lemma {:induction false} FullLands(m: Model, cfg: Config, s: Sys, v: Scene, items: seq<BatchItem>)
    requires Shows(m, cfg, s, v) && v.phase == Planned(items) && Demand(v, items) > v.total
    ensures Shows(m, cfg, Step(m, cfg, s, EExecute), v.(phase := Landed(items, CapacityError)))
  {
    hide Inv, Core, Looks, Cache.EnsureCapacity, PlanFor, Demand, Required, Execute, Cache.Valid, Agrees, ItemIds;
    ShownParts(m, cfg, s, v);
    StepInv(m, cfg, s, EExecute);
    FullShown(m, cfg, s, v, items);
    CoreCache(m, cfg, s, items);
    RequiredIds(items);
    EnsureCapacityFacts(s.cache, Required(items));
    FullOutcome(m, cfg, s, items);
    LandedLooks(s, v, items, s.cache.EnsureCapacity(Required(items)).1);
  }

  lemma {:induction false} ShownParts(m: Model, cfg: Config, s: Sys, v: Scene)
    requires Shows(m, cfg, s, v)
    ensures Inv(m, cfg, s) && Looks(s, v) && s.phase == v.phase
    ensures v.phase.Planned? ==> Core(m, cfg, s, v.phase.items, Unfed)
  {
  }

  lemma {:induction false} FullOutcome(m: Model, cfg: Config, s: Sys, items: seq<BatchItem>)
    requires s.phase == Planned(items) && s.cache.EnsureCapacity(Required(items)).0 == Some(Full)
    ensures var t := Step(m, cfg, s, EExecute);
      t == s.(cache := s.cache.EnsureCapacity(Required(items)).1, phase := Landed(items, CapacityError),
        metrics := t.metrics)
  {
  }

  lemma {:induction false} LandedLooks(s: Sys, v: Scene, items: seq<BatchItem>, cache: Cache)
    requires Looks(s, v) && SameRequests(s.cache, cache)
    ensures forall metrics :: Looks(s.(cache := cache, phase := Landed(items, CapacityError), metrics := metrics),
                                    v.(phase := Landed(items, CapacityError)))
  {
  }

  ghost predicate WithinContext(cfg: Config, items: seq<BatchItem>) {
    forall k :: 0 <= k < |items| ==> items[k].End() <= cfg.maxModelLen
  }

  lemma {:induction false} ShownFits(m: Model, cfg: Config, s: Sys, items: seq<BatchItem>, g: Cache)
    requires Core(m, cfg, s, items, Unfed) && Grown(s.cache, g, items) && WithinContext(cfg, items)
    ensures FitsWidth(cfg.graph, cfg.maxModelLen, g, items)
  {
    hide Core, FitsWidth, Grown, BlocksFor;
    GrownFits(m, cfg, s, items, g);
    forall k | 0 <= k < |items|
      ensures BlocksFor(s.cache.size, items[k].End()) <= BlocksFor(s.cache.size, cfg.maxModelLen) {
      BlocksForMonotone(s.cache.size, items[k].End(), cfg.maxModelLen);
    }
  }

  /** With blocks enough and tables narrow enough, a forward raises if and only if graph mode does not take the plan. */
  lemma {:induction false} ForwardShown(m: Model, cfg: Config, s: Sys, v: Scene, items: seq<BatchItem>)
    requires Shows(m, cfg, s, v) && v.phase == Planned(items) && Demand(v, items) <= v.total
    requires WithinContext(cfg, items)
    ensures var (outcome, d) := Execute(m, cfg.graph, cfg.maxModelLen, s.cache, items);
      if Raises(cfg.graph, items) then outcome.Crashed?
      else
        && outcome.Ran? && CompletedCall(m, s.cache, d, Hist(s), items, outcome.outputs)
        && (RowsSafe(cfg.graph, items) ==> RightOutputs(m, Hist(s), items, outcome.outputs))
  {
    hide Inv, Core, Looks, Cache.Valid, Agrees, Finish, FitsWidth, Cache.EnsureCapacity, RowsSafe, PlanFor, Packed,
      ItemsOk, Grown, CompletedCall, RightOutputs, Raises, Demand, WithinContext, Required;
    ShownParts(m, cfg, s, v);
    FlightPlan(m, cfg, s, items);
    FullShown(m, cfg, s, v, items);
    CoreCache(m, cfg, s, items);
    GrowForPlan(m, s.cache, Hist(s), items);
    var (error, g) := s.cache.EnsureCapacity(Required(items));
    ShownFits(m, cfg, s, items, g);
    FinishFacts(m, cfg.graph, cfg.maxModelLen, s.cache, g, Hist(s), items);
  }

  lemma {:induction false} CoreCache(m: Model, cfg: Config, s: Sys, items: seq<BatchItem>)
    requires Core(m, cfg, s, items, Unfed)
    ensures s.cache.Valid() && Agrees(m, s.cache, Hist(s)) && NoDup(ItemIds(items))
    ensures forall k :: 0 <= k < |items| ==> items[k].id in s.active && items[k].id < |s.reqs|
  {
    hide Cache.Valid, Agrees;
    forall k | 0 <= k < |items| ensures items[k].id in s.active && items[k].id < |s.reqs| {
      assert ItemInFlight(m, cfg, s, items[k], Unfed);
    }
  }

  // -- its post-processing ---------------------------------------------------------------------------

  /** One item of a completed forward, its request having been given `token`, and nothing ending. */
  function Moved(b: Brief, item: BatchItem, token: Token): Brief {
    b.(fed := item.End(), state := if item.sample then Decoding else Prefill,
       generated := if item.sample then b.generated + [token] else b.generated)
  }

  ghost predicate AllMoved(v: Scene, w: Scene, items: seq<BatchItem>, said: seq<Token>) {
    && |said| == |items| && |w.reqs| == |v.reqs|
    && (forall j :: 0 <= j < |v.reqs| && j !in ItemIds(items) ==> w.reqs[j] == v.reqs[j])
    && (forall k :: 0 <= k < |items| ==>
          && items[k].id < |v.reqs| && !v.reqs[items[k].id].Terminal()
          && (items[k].sample ==> |v.reqs[items[k].id].generated| + 1 < v.reqs[items[k].id].maxOut)
          && w.reqs[items[k].id] == Moved(v.reqs[items[k].id], items[k], said[k]))
  }

  ghost predicate SaidBy(items: seq<BatchItem>, said: seq<Token>, outputs: map<nat, Token>) {
    |said| == |items| &&
    forall k :: 0 <= k < |items| && items[k].sample ==> items[k].id in outputs && outputs[items[k].id] == said[k]
  }

  lemma {:induction false} QuietToken(r: Req, token: Token, capacity: int)
    requires Quiet(r) && capacity <= 0 && |r.generated| + 1 < r.maxOut
    ensures var w := WithToken(r, token, capacity, 0);
      Quiet(w) && BriefOf(w) == BriefOf(r).(generated := r.generated + [token], state := Decoding)
  {
    var e := StreamEvent(Some(token), false);
    QuietDrain(r.(generated := r.generated + [token]), e, capacity);
  }

  lemma {:induction false} QuietDrain(r: Req, e: StreamEvent, capacity: int)
    requires Quiet(r) && capacity <= 0
    ensures Published(r, e, capacity, 0) == r.(queue := r.queue + [e])
  {
    var p := r.(pending := r.pending + [e]);
    assert p.pending == [e] && [e][1..] == [];
    var q := p.(queue := p.queue + [e], pending := []);
    assert Drained(q, capacity, 0) == q.(stalled := None);
    assert Drained(p, capacity, 0) == Drained(q, capacity, 0);
  }

  lemma {:induction false} ItemPosted(cfg: Config, s: Sys, v: Scene, item: BatchItem, outputs: map<nat, Token>,
                                      token: Token)
    requires Looks(s, v) && cfg.streamCapacity <= 0 && item.id < |v.reqs| && !v.reqs[item.id].Terminal()
    requires v.reqs[item.id].fed == item.End()
    requires item.sample ==> item.id in outputs && outputs[item.id] == token
    requires item.sample ==> |v.reqs[item.id].generated| + 1 < v.reqs[item.id].maxOut
    ensures Looks(PostItem(cfg, s, item, outputs, 0),
      v.(reqs := v.reqs[item.id := Moved(v.reqs[item.id], item, token)]))
  {
    var r := s.reqs[item.id];
    assert Quiet(r) && BriefOf(r) == v.reqs[item.id];
    RecomputedFacts(r, item);
    if item.sample {
      QuietToken(Recomputed(r, item), token, cfg.streamCapacity);
    }
    hide WithToken, Finalize, Fail;
  }

  lemma {:induction false} AllMovedTail(v: Scene, w: Scene, items: seq<BatchItem>, said: seq<Token>)
    requires AllMoved(v, w, items, said) && items != [] && NoDup(ItemIds(items))
    ensures var mid := v.(reqs := v.reqs[items[0].id := Moved(v.reqs[items[0].id], items[0], said[0])]);
      AllMoved(mid, w, items[1..], said[1..]) && NoDup(ItemIds(items[1..]))
      && forall k :: 0 <= k < |items[1..]| ==> mid.reqs[items[1..][k].id] == v.reqs[items[1..][k].id]
  {
    hide Moved, Brief.Terminal;
    assert ItemIds(items) == [items[0].id] + ItemIds(items[1..]);
    NoDupConcat([items[0].id], ItemIds(items[1..]));
    assert forall k :: 0 <= k < |items[1..]| ==>
      items[1..][k] == items[k + 1] && ItemIds(items[1..])[k] == items[k + 1].id;
  }

  lemma {:induction false} ItemsPosted(cfg: Config, s: Sys, v: Scene, w: Scene, items: seq<BatchItem>,
                                       outputs: map<nat, Token>, said: seq<Token>)
    requires Looks(s, v) && cfg.streamCapacity <= 0 && NoDup(ItemIds(items)) && w == v.(reqs := w.reqs)
    requires AllMoved(v, w, items, said) && SaidBy(items, said, outputs)
    requires forall k :: 0 <= k < |items| ==> v.reqs[items[k].id].fed == items[k].End()
    ensures Looks(PostRan(cfg, s, items, outputs, 0), w)
    decreases |items|
  {
    hide Moved, NoDup, Looks, PostItem;
    if items == [] {
      assert w.reqs == v.reqs;
    } else {
      AllMovedTail(v, w, items, said);
      ItemPosted(cfg, s, v, items[0], outputs, said[0]);
      SaidTail(items, said, outputs);
      hide AllMoved, SaidBy, PostRan;
      PostRanTurn(cfg, s, items, outputs);
      var mid := v.(reqs := v.reqs[items[0].id := Moved(v.reqs[items[0].id], items[0], said[0])]);
      ItemsPosted(cfg, PostItem(cfg, s, items[0], outputs, 0), mid, w, items[1..], outputs, said[1..]);
    }
  }

  lemma {:induction false} SaidTail(items: seq<BatchItem>, said: seq<Token>, outputs: map<nat, Token>)
    requires SaidBy(items, said, outputs) && items != []
    ensures SaidBy(items[1..], said[1..], outputs)
  {
  }

  lemma {:induction false} PostRanTurn(cfg: Config, s: Sys, items: seq<BatchItem>, outputs: map<nat, Token>)
    requires items != []
    ensures PostRan(cfg, s, items, outputs, 0) == PostRan(cfg, PostItem(cfg, s, items[0], outputs, 0), items[1..],
      outputs, 0)
  {
  }

  /** `v` with the fed counts of `w`. */
  function FedLike(v: Scene, w: Scene): Scene
    requires |w.reqs| == |v.reqs|
  {
    v.(phase := Idle, reqs := seq(|v.reqs|, j requires 0 <= j < |v.reqs| &&
      |w.reqs| == |v.reqs| => v.reqs[j].(fed := w.reqs[j].fed)))
  }

  lemma {:induction false} FedMoved(v: Scene, w: Scene, items: seq<BatchItem>, said: seq<Token>)
    requires AllMoved(v, w, items, said)
    ensures AllMoved(FedLike(v, w), w, items, said)
    ensures forall k :: 0 <= k < |items| ==> FedLike(v, w).reqs[items[k].id].fed == items[k].End()
  {
  }

  lemma {:induction false} FedLooks(s: Sys, v: Scene, w: Scene, items: seq<BatchItem>, said: seq<Token>, cache: Cache,
                                    metrics: Metrics)
    requires Looks(s, v) && AllMoved(v, w, items, said) && NoDup(ItemIds(items))
    requires cache.size == s.cache.size && cache.limit == s.cache.limit && cache.alloc.total == s.cache.alloc.total
    ensures Looks(FedAll(s, items).(cache := cache, phase := Idle, metrics := metrics), FedLike(v, w))
  {
    FedAllFacts(s, items);
    var f := FedAll(s, items);
    hide FedAll, NoDup;
    forall j | 0 <= j < |s.reqs| ensures Quiet(f.reqs[j]) && BriefOf(f.reqs[j]) == v.reqs[j].(fed := w.reqs[j].fed) {
      assert Quiet(s.reqs[j]) && BriefOf(s.reqs[j]) == v.reqs[j];
      if j in ItemIds(items) {
        var k :| 0 <= k < |items| && items[k].id == j;
      }
    }
  }

  lemma {:induction false} ForwardStep(m: Model, cfg: Config, s: Sys, items: seq<BatchItem>, outputs: map<nat, Token>,
                                       d: Cache)
    requires s.phase == Planned(items) && Execute(m, cfg.graph, cfg.maxModelLen, s.cache, items) == (Ran(outputs), d)
    ensures var t := Step(m, cfg, s, EExecute);
      && t == FedAll(s, items).(cache := d, phase := Landed(items, Ran(outputs)), metrics := t.metrics)
      && Step(m, cfg, t, EPost(0)) == PostRan(cfg, FedAll(s, items).(cache := d, phase := Idle, metrics := t.metrics),
           items, outputs, 0)
  {
    hide FedAll, PostRan, Execute;
  }

  /** A forward that runs, and its post-processing. */
  lemma {:induction false} ForwardMoves(m: Model, cfg: Config, s: Sys, v: Scene, items: seq<BatchItem>,
                                        said: seq<Token>, w: Scene)
    requires Shows(m, cfg, s, v) && v.phase == Planned(items) && cfg.streamCapacity <= 0
    requires Demand(v, items) <= v.total && WithinContext(cfg, items) && !Raises(cfg.graph, items)
    requires AllMoved(v, w, items, said) && w == v.(reqs := w.reqs, phase := Idle)
    requires var outcome := Execute(m, cfg.graph, cfg.maxModelLen, s.cache, items).0;
      outcome.Ran? ==> SaidBy(items, said, outcome.outputs)
    ensures Shows(m, cfg, Step(m, cfg, Step(m, cfg, s, EExecute), EPost(0)), w)
  {
    hide Inv, Core, Looks, Demand, WithinContext, Raises, Execute, CompletedCall, AllMoved, SaidBy, RightOutputs,
      RowsSafe, NoDup, Cache.Valid, Agrees, Step, PostRan, FedAll;
    ShownParts(m, cfg, s, v);
    CoreCache(m, cfg, s, items);
    ForwardShown(m, cfg, s, v, items);
    var (outcome, d) := Execute(m, cfg.graph, cfg.maxModelLen, s.cache, items);
    CompletedShape(m, s.cache, d, Hist(s), items, outcome.outputs);
    StepInv(m, cfg, s, EExecute);
    StepInv(m, cfg, Step(m, cfg, s, EExecute), EPost(0));
    ForwardStep(m, cfg, s, items, outcome.outputs, d);
    var t := Step(m, cfg, s, EExecute);
    MovedShape(v, w, items, said);
    FedLooks(s, v, w, items, said, d, t.metrics);
    FedMoved(v, w, items, said);
    ItemsPosted(cfg, FedAll(s, items).(cache := d, phase := Idle, metrics := t.metrics), FedLike(v, w), w, items,
      outcome.outputs, said);
  }

  lemma {:induction false} CompletedShape(m: Model, c: Cache, d: Cache, hist: seq<seq<Token>>, items: seq<BatchItem>,
                                          outputs: map<nat, Token>)
    requires CompletedCall(m, c, d, hist, items, outputs)
    ensures d.size == c.size && d.limit == c.limit && d.alloc.total == c.alloc.total
  {
  }

  lemma {:induction false} MovedShape(v: Scene, w: Scene, items: seq<BatchItem>, said: seq<Token>)
    requires AllMoved(v, w, items, said)
    ensures |w.reqs| == |v.reqs| && forall k :: 0 <= k < |items| ==> items[k].id < |v.reqs|
  {
  }

  // -- the successor model's tokens --------------------------------------------------------------------

  /** The successor of each item's last token. */
  function Successors(items: seq<BatchItem>): seq<Token> {
    seq(|items|, k requires 0 <= k < |items| => if items[k].tokens == [] then 0
      else items[k].tokens[|items[k].tokens| - 1] + 1)
  }

  lemma {:induction false} SuccessorsSaid(layers: nat, cfg: Config, s: Sys, items: seq<BatchItem>,
                                          outputs: map<nat, Token>)
    requires Core(Successor(layers), cfg, s, items, Unfed) && RightOutputs(Successor(layers), Hist(s), items, outputs)
    ensures SaidBy(items, Successors(items), outputs)
  {
    hide CacheOk, Places, AllFaithful, Residents;
    var m, hist := Successor(layers), Hist(s);
    forall k | 0 <= k < |items| && items[k].sample
      ensures items[k].id in outputs && outputs[items[k].id] == Successors(items)[k] {
      assert ItemInFlight(m, cfg, s, items[k], Unfed);
      SuccessorNext(layers, hist[items[k].id][..items[k].End()]);
    }
  }

  /** With the rows in order, every sampling request is given the successor of its last token. */
  lemma {:induction false} ForwardShows(layers: nat, cfg: Config, s: Sys, v: Scene, items: seq<BatchItem>, w: Scene)
    requires Shows(Successor(layers), cfg, s, v) && v.phase == Planned(items) && cfg.streamCapacity <= 0
    requires Demand(v, items) <= v.total && WithinContext(cfg, items)
    requires !Raises(cfg.graph, items) && RowsSafe(cfg.graph, items)
    requires AllMoved(v, w, items, Successors(items)) && w == v.(reqs := w.reqs, phase := Idle)
    ensures Shows(Successor(layers), cfg, Step(Successor(layers), cfg, Step(Successor(layers), cfg, s, EExecute),
      EPost(0)), w)
  {
    hide Successor, Inv, Core, Looks, Demand, WithinContext, Raises, Execute, CompletedCall, AllMoved, SaidBy,
      RightOutputs, RowsSafe, Successors, Cache.Valid, Agrees, Step;
    ShownParts(Successor(layers), cfg, s, v);
    ForwardShown(Successor(layers), cfg, s, v, items);
    SuccessorsSaid(layers, cfg, s, items, Execute(Successor(layers), cfg.graph, cfg.maxModelLen, s.cache,
      items).0.outputs);
    ForwardMoves(Successor(layers), cfg, s, v, items, Successors(items), w);
  }

  // -- preemption and cancellation -----------------------------------------------------------------------

  function RankAt(cfg: Config, v: Scene, i: nat): seq<int> {
    var b := v.Get(i);
    cfg.victimPriority(VictimCandidate(i, BlocksFor(v.size, b.fed) * v.size, b.fed, |b.generated|, 0))
  }

  function EvictedScene(v: Scene, i: nat): Scene
    requires i < |v.reqs|
  {
    v.(phase := Idle, active := RemoveFirst(v.active, i), waiting := v.waiting + [i],
       reqs := v.reqs[i := v.reqs[i].(fed := 0, state := Waiting, returned := true)])
  }

  lemma {:induction false} RankShown(m: Model, cfg: Config, s: Sys, v: Scene, items: seq<BatchItem>, i: nat)
    requires Core(m, cfg, s, items, Unfed) && Looks(s, v) && i in s.active
    ensures i < |s.reqs| && VictimRank(cfg, s.(phase := Idle), i) == RankAt(cfg, v, i)
  {
    hide Cache.Valid, Agrees, AllFaithful;
    assert Settled(s, i) && Quiet(s.reqs[i]) && BriefOf(s.reqs[i]) == v.reqs[i];
  }

  lemma {:induction false} AllLiving(s: Sys, ids: seq<nat>)
    requires forall k :: 0 <= k < |ids| ==> !s.Get(ids[k]).Terminal()
    ensures Living(s, ids) == ids
  {
    if ids != [] {
      var n := |ids| - 1;
      AllLiving(s, ids[..n]);
      assert ids == ids[..n] + [ids[n]];
    }
  }

  lemma {:induction false} FirstVictim(cfg: Config, s: Sys, ids: seq<nat>)
    requires ids != []
    requires forall k :: 0 <= k < |ids| ==> !TupleLess(VictimRank(cfg, s, ids[0]), VictimRank(cfg, s, ids[k]))
    ensures Victim(cfg, s, ids) == ids[0]
  {
    hide TupleLess, VictimRank;
    if |ids| > 1 {
      FirstVictim(cfg, s, ids[..|ids| - 1]);
    }
  }

  lemma {:induction false} EvictedLooks(s: Sys, v: Scene, i: nat)
    requires Looks(s, v) && i < |v.reqs|
    ensures Looks(Evicted(s.(phase := Idle), i), EvictedScene(v, i))
  {
    assert Quiet(s.reqs[i]) && BriefOf(s.reqs[i]) == v.reqs[i];
  }

  /** The first resident is unfinished, like all others, and none outranks it. */
  ghost predicate FirstHighest(cfg: Config, v: Scene) {
    && |v.active| > 1 && v.active[0] < |v.reqs|
    && (forall k :: 0 <= k < |v.active| ==> !v.Get(v.active[k]).Terminal())
    && forall k :: 0 <= k < |v.active| ==> !TupleLess(RankAt(cfg, v, v.active[0]), RankAt(cfg, v, v.active[k]))
  }

  /** Then it is the one preempted. */
  lemma {:induction false} FirstPreempted(m: Model, cfg: Config, s: Sys, v: Scene, items: seq<BatchItem>)
    requires Shows(m, cfg, s, v) && v.phase == Landed(items, CapacityError) && FirstHighest(cfg, v)
    ensures Shows(m, cfg, Step(m, cfg, s, EPost(0)), EvictedScene(v, v.active[0]))
  {
    hide Inv, Core, Looks, EvictedScene, Evicted, Victim, Living, VictimRank, RankAt, Step, Scene.Get, Sys.Get,
      Brief.Terminal, Req.Terminal, TupleLess;
    ShownParts(m, cfg, s, v);
    LooksLists(s, v);
    LandedCore(m, cfg, s, items);
    StepInv(m, cfg, s, EPost(0));
    var idle := s.(phase := Idle);
    forall k | 0 <= k < |s.active|
      ensures !idle.Get(s.active[k]).Terminal() && VictimRank(cfg, idle, s.active[k]) == RankAt(cfg, v, s.active[k]) {
      RankShown(m, cfg, s, v, items, s.active[k]);
      TerminalShown(s, v, s.active[k]);
    }
    FirstChosen(m, cfg, s, items);
    EvictedLooks(s, v, v.active[0]);
  }

  lemma {:induction false} LandedCore(m: Model, cfg: Config, s: Sys, items: seq<BatchItem>)
    requires Inv(m, cfg, s) && s.phase == Landed(items, CapacityError)
    ensures Core(m, cfg, s, items, Unfed)
  {
  }

  lemma {:induction false} TerminalShown(s: Sys, v: Scene, i: nat)
    requires Looks(s, v)
    ensures s.(phase := Idle).Get(i).Terminal() <==> v.Get(i).Terminal()
  {
    assert i < |s.reqs| ==> BriefOf(s.reqs[i]) == v.reqs[i];
  }

  lemma {:induction false} FirstChosen(m: Model, cfg: Config, s: Sys, items: seq<BatchItem>)
    requires s.phase == Landed(items, CapacityError) && |s.active| > 1
    requires forall k :: 0 <= k < |s.active| ==> !s.(phase := Idle).Get(s.active[k]).Terminal()
    requires forall k :: 0 <= k < |s.active| ==>
      !TupleLess(VictimRank(cfg, s.(phase := Idle), s.active[0]), VictimRank(cfg, s.(phase := Idle), s.active[k]))
    ensures Step(m, cfg, s, EPost(0)) == Evicted(s.(phase := Idle), s.active[0])
  {
    hide Evicted, Victim, Living, VictimRank, Sys.Get, TupleLess;
    AllLiving(s.(phase := Idle), s.active);
    FirstVictim(cfg, s.(phase := Idle), s.active);
  }

  function CancelledScene(v: Scene, i: nat): Scene
    requires i < |v.reqs|
  {
    v.(active := RemoveFirst(v.active, i), waiting := RemoveFirst(v.waiting, i),
      reqs := v.reqs[i := v.reqs[i].(state := Cancelled)])
  }

  lemma {:induction false} CancelShows(m: Model, cfg: Config, s: Sys, v: Scene, i: nat)
    requires Shows(m, cfg, s, v) && v.phase.Idle? && i < |v.reqs| && !v.reqs[i].Terminal() && cfg.streamCapacity <= 0
    ensures Shows(m, cfg, Step(m, cfg, s, ECancel(i, 0)), CancelledScene(v, i))
  {
    hide Inv, Step;
    StepInv(m, cfg, s, ECancel(i, 0));
    CancelledLooks(m, cfg, s, v, i);
  }

  lemma {:induction false} CancelledLooks(m: Model, cfg: Config, s: Sys, v: Scene, i: nat)
    requires Looks(s, v) && v.phase.Idle? && i < |v.reqs| && !v.reqs[i].Terminal() && cfg.streamCapacity <= 0
    ensures Looks(Step(m, cfg, s, ECancel(i, 0)), CancelledScene(v, i))
  {
    assert Quiet(s.reqs[i]) && BriefOf(s.reqs[i]) == v.reqs[i];
    QuietDrain(s.reqs[i].(state := Cancelled), STOP, cfg.streamCapacity);
  }
}
