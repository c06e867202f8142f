/** What exactly the limits and prompts must be, and runs of engines that can start for everything they exclude. */
module SchedulerLimits {
  import opened Lists
  import opened Allocator
  import opened Transformer
  import opened KvCache
  import opened Packing
  import opened Padding
  import opened Runner
  import opened Scheduling
  import opened SchedulerCore
  import opened SchedulerPlan
  import opened SchedulerRun
  import opened SchedulerWork
  import opened SchedulerCapacity
  import opened SchedulerTight
  import opened SchedulerMoves
  import opened SchedulerStreams
  import opened SchedulerLeaks
  import opened SchedulerScenes
  import opened SchedulerCrowd
  import opened SchedulerCohort

  // -- rows handed to the wrong requests -----------------------------------------------------------------

  /**
   * In graph mode with one-token chunks, three places and a budget of three, under a policy that puts prefills
   * first: from an engine that can start, a run after which a request has been given a word that is not in its answer.
   */
  lemma {:induction false} Misrouted(layers: nat, cfg: Config, w: Crowd, q: nat)
    requires cfg.graph && Crowding(cfg, w, q) && OneEach(cfg, 2, true) && w.total >= 3 && Roomy(cfg, 3, w.max + 1)
    requires cfg.maxModelLen <= 4096 && cfg.activeLimit <= w.total
    ensures var m, s0 := Successor(layers), Started(layers, w.total);
      && Startable(cfg, s0) && Initial(m, s0)
      && var s, i := Run(m, cfg, s0, ReturnEvents(w, q) + MisroutedEvents(w.max)), w.others + 1;
         && i < |s.reqs| && s.reqs[i].prompt == [10] && s.reqs[i].eos == None && s.reqs[i].maxOut == w.max
         && s.reqs[i].generated == [11, 3] && !(s.reqs[i].generated <= Answer(m, [10], None, w.max))
  {
    hide Successor, Run, Started, MisroutedEvents, ReturnEvents, Shows, MisroutedScene, Returned, Crowding, OneEach,
      Answer, Initial, Startable;
    MisroutedLimits(cfg, w, q);
    LayersOf(layers);
    StartedShows(Successor(layers), cfg, w.total);
    CrowdReturned(layers, cfg, w, q);
    StageIs(w, q * cfg.budget);
    MisroutedReached(layers, cfg, Started(layers, w.total), ReturnEvents(w, q), StageOf(w, q * cfg.budget));
    var s := Run(Successor(layers), cfg, Started(layers, w.total), ReturnEvents(w, q) + MisroutedEvents(w.max));
    ShownParts(Successor(layers), cfg, s, MisroutedScene(StageOf(w, q * cfg.budget)));
    MisroutedLook(s, StageOf(w, q * cfg.budget));
    SuccessorAnswer(layers, w.max);
    OtherWords(Answer(Successor(layers), [10], None, w.max));
  }

  lemma {:induction false} MisroutedLimits(cfg: Config, w: Crowd, q: nat)
    requires Crowding(cfg, w, q)
    ensures w.told >= BLOCK && w.max > w.told && cfg.streamCapacity <= 0
  {
  }

  lemma {:induction false} StageIs(w: Crowd, j: nat)
    ensures var g := StageOf(w, j); g.total == w.total && g.max == w.max && g.told == w.told && g.Next() == w.others + 1
  {
  }

  // -- what exactly the limits must be ---------------------------------------------------------------------

  /** Limits and policies given, room for a run that fills the pool with as many requests as there are places. */
  function GraphConfig(chunk: Positive, budget: Positive, limit: int, priority: Candidate -> seq<int>): Config {
    Config(2 * BLOCK, limit + budget, limit, budget, chunk, 0, 0, 0, true, priority, LargestSequence)
  }

  /** As many requests as places, the first of them told a block of tokens before the others come. */
  function GraphCrowd(limit: int): Crowd
    requires limit >= 2
  {
    Crowd(limit, BLOCK + 2, BLOCK, limit - 1)
  }

  lemma {:induction false} GraphCrowding(cfg: Config, chunk: Positive, budget: Positive, limit: int,
                                         priority: Candidate -> seq<int>)
    requires limit >= 2 && cfg == GraphConfig(chunk, budget, limit, priority) && PrefillsFirst(priority)
    ensures Crowding(cfg, GraphCrowd(limit), (limit - 1) / budget)
    ensures Roomy(cfg, limit, BLOCK + 3) && (budget >= 3 && limit >= 3 ==> Roomy(cfg, 3, BLOCK + 3))
  {
    hide PrefillsFirst;
    BlocksForExact(BLOCK, 1);
    var q, r := (limit - 1) / budget, (limit - 1) % budget;
    assert limit - 1 == q * budget + r;
  }

  ghost predicate InGraphMode(cfg: Config, chunk: Positive, budget: Positive, limit: int) {
    cfg.graph && cfg.chunk == chunk && cfg.budget == budget && cfg.activeLimit == limit
  }

  /** Every request of the run has generated a prefix of its answer. */
  ghost predicate OwnWords(m: Model, s: Sys) {
    forall i :: 0 <= i < |s.reqs| ==>
      s.reqs[i].prompt != [] && s.reqs[i].generated <= Answer(m, s.reqs[i].prompt, s.reqs[i].eos, s.reqs[i].maxOut)
  }

  /**
   * Whatever the policies, the model, the engine that can start and the run, graph mode with these limits hands every
   * request its own words.
   */
  ghost predicate ParityInGraphMode(chunk: Positive, budget: Positive, limit: int) {
    forall m, cfg, s, events :: InGraphMode(cfg, chunk, budget, limit) && Startable(cfg, s) && Initial(m, s) ==>
      OwnWords(m, Run(m, cfg, s, events))
  }

  lemma {:induction false} ParityHolds(chunk: Positive, budget: Positive, limit: int)
    requires chunk >= 2 || limit <= 2 || budget <= 2
    ensures ParityInGraphMode(chunk, budget, limit)
  {
    hide Run, Initial, Startable;
    forall m, cfg, s, events | InGraphMode(cfg, chunk, budget, limit) && Startable(cfg, s) && Initial(m, s)
      ensures OwnWords(m, Run(m, cfg, s, events)) {
      var t := Run(m, cfg, s, events);
      forall i | 0 <= i < |t.reqs|
        ensures t.reqs[i].prompt != []
        ensures t.reqs[i].generated <= Answer(m, t.reqs[i].prompt, t.reqs[i].eos, t.reqs[i].maxOut) {
        TokenParity(m, cfg, s, events, i);
      }
    }
  }

  lemma {:induction false} ParityFails(budget: Positive, limit: int)
    requires limit >= 3 && budget >= 3
    ensures !ParityInGraphMode(1, budget, limit)
  {
    hide Run, Started, MisroutedEvents, ReturnEvents, Answer, Crowding, Initial, Startable, PrefillsFirst, Successor;
    var cfg, w, q := GraphConfig(1, budget, limit, PrefillFirst), GraphCrowd(limit), (limit - 1) / budget;
    BothPrefillsFirst();
    GraphCrowding(cfg, 1, budget, limit, PrefillFirst);
    Misrouted(0, cfg, w, q);
    var t := Run(Successor(0), cfg, Started(0, w.total), ReturnEvents(w, q) + MisroutedEvents(w.max));
    assert !OwnWords(Successor(0), t) by {
      assert !(t.reqs[w.others + 1].generated <= Answer(Successor(0), [10], None, w.max));
    }
  }

  /**
   * Exactly which limits keep the words right in graph mode for every policy: two or more tokens per chunk, or no
   * more than two residents, or a budget of at most two.
   */
  lemma {:induction false} ParityExactly(chunk: Positive, budget: Positive, limit: int)
    ensures ParityInGraphMode(chunk, budget, limit) <==> chunk >= 2 || limit <= 2 || budget <= 2
  {
    if chunk >= 2 || limit <= 2 || budget <= 2 {
      ParityHolds(chunk, budget, limit);
    } else {
      ParityFails(budget, limit);
    }
  }

  // -- a forward graph mode does not take ------------------------------------------------------------------

  /**
   * In graph mode, in any configuration that feeds a returned request one token beside as many newcomers as fill a
   * captured batch: from an engine that can start, a run in which a forward raises.
   */
  lemma {:induction false} CohortCrashes(layers: nat, cfg: Config, w: Crowd, q: nat, n: nat)
    requires cfg.graph && Crowding(cfg, w, q) && OneEach(cfg, n, false) && n < w.total && Roomy(cfg, n + 1, w.max + 1)
    requires cfg.maxModelLen <= 4096 && cfg.activeLimit <= w.total && GraphBucket(n + 1) == n + 1 && n != 1
    ensures var m, s0 := Successor(layers), Started(layers, w.total);
      && Startable(cfg, s0) && Initial(m, s0)
      && var s := Run(m, cfg, s0, ReturnEvents(w, q) + CohortEvents(n, w.max));
         s.phase.Planned? && PromptsFit(cfg, s, s.phase.items) &&
         ExecuteStep(m, cfg, s, s.phase.items).phase.outcome.Crashed?
  {
    hide Successor, Run, Started, CohortEvents, ReturnEvents, Shows, Returned, OneEach, Initial, Startable, GraphBucket,
      Cohort, CohortItems, CohortOrder, ExecuteStep, PromptsFit;
    MisroutedLimits(cfg, w, q);
    hide Crowding;
    LayersOf(layers);
    StartedShows(Successor(layers), cfg, w.total);
    CrowdReturned(layers, cfg, w, q);
    StageIs(w, q * cfg.budget);
    var g := StageOf(w, q * cfg.budget);
    CohortReached(layers, cfg, Started(layers, w.total), ReturnEvents(w, q), g, n, false);
    var s := Run(Successor(layers), cfg, Started(layers, w.total), ReturnEvents(w, q) + CohortEvents(n, w.max));
    CohortRefused(layers, cfg, s, g, n);
    CohortPrompts(Successor(layers), cfg, s, g, n);
  }

  lemma {:induction false} CohortPrompts(m: Model, cfg: Config, s: Sys, g: Stage, n: nat)
    requires Shows(m, cfg, s, Cohort(g, n, 1, Planned(CohortItems(1, CohortOrder(g, n, false)))))
    ensures s.phase.Planned? && PromptsFit(cfg, s, s.phase.items)
  {
    hide Cohort, CohortItem, CohortOrder, Inv;
    var items := CohortItems(1, CohortOrder(g, n, false));
    var v := Cohort(g, n, 1, Planned(items));
    CohortSize(g, n, 1, Planned(items));
    assert TableRoom(cfg, BLOCK) >= 1;
    InOrder(g, n, false, 0);
    forall k | 0 <= k < |items| ensures |s.Get(items[k].id).prompt| <= 1 {
      InOrder(g, n, false, k);
      ItemIs(1, CohortOrder(g, n, false)[k]);
      CohortAt(g, n, 1, Planned(items), items[k].id);
      assert BriefOf(s.reqs[items[k].id]) == v.reqs[items[k].id];
    }
  }

  lemma {:induction false} ItemIs(g: nat, i: nat)
    ensures CohortItem(g, i).id == i
  {
  }

  /**
   * In graph mode with one-token slices and two places, under any policy and so under the production one: from an
   * engine that can start, a run in which the forward of a request re-feeding its own output alone raises.
   */
  lemma {:induction false} LoneCrashes(layers: nat, cfg: Config, w: Crowd)
    requires cfg.graph && FullHouse(cfg, w) && (cfg.chunk == 1 || cfg.budget == 1)
    requires Startable(cfg, Started(layers, w.total))
    ensures var m, s0 := Successor(layers), Started(layers, w.total);
      && Initial(m, s0)
      && var s := Run(m, cfg, s0, ReturnEvents(w, 0) + CohortEvents(0, w.max));
         s.phase.Planned? && PromptsFit(cfg, s, s.phase.items) &&
         ExecuteStep(m, cfg, s, s.phase.items).phase.outcome.Crashed?
  {
    hide Successor, Run, Started, CohortEvents, ReturnEvents, Shows, Returned, Initial, Startable, GraphBucket, Cohort,
      CohortItems, CohortOrder, ExecuteStep, PromptsFit;
    LayersOf(layers);
    StartedShows(Successor(layers), cfg, w.total);
    FullHouseReturned(layers, cfg, w);
    StageIs(w, 0);
    SmallBuckets();
    CohortReached(layers, cfg, Started(layers, w.total), ReturnEvents(w, 0), StageOf(w, 0), 0, false);
    var s := Run(Successor(layers), cfg, Started(layers, w.total), ReturnEvents(w, 0) + CohortEvents(0, w.max));
    CohortRefused(layers, cfg, s, StageOf(w, 0), 0);
    CohortPrompts(Successor(layers), cfg, s, StageOf(w, 0), 0);
  }

  /**
   * Whatever the policies, the model, the engine that can start and the run, no planned forward of prompts that fit
   * the table tensor raises.
   */
  ghost predicate NothingRaised(chunk: Positive, budget: Positive, limit: int) {
    forall m, cfg, s, events :: InGraphMode(cfg, chunk, budget, limit) && Startable(cfg, s) && Initial(m, s) ==>
      Completes(m, cfg, Run(m, cfg, s, events))
  }

  ghost predicate Completes(m: Model, cfg: Config, s: Sys) {
    s.phase.Planned? && PromptsFit(cfg, s, s.phase.items) ==>
      !ExecuteStep(m, cfg, s, s.phase.items).phase.outcome.Crashed?
  }

  lemma {:induction false} NothingRaises(chunk: Positive, budget: Positive, limit: int)
    requires TakesAll(chunk, budget, limit)
    ensures NothingRaised(chunk, budget, limit)
  {
    hide Run, Initial, Startable, PromptsFit;
    forall m, cfg, s, events | InGraphMode(cfg, chunk, budget, limit) && Startable(cfg, s) && Initial(m, s)
      ensures Completes(m, cfg, Run(m, cfg, s, events)) {
      var t := Run(m, cfg, s, events);
      if t.phase.Planned? && PromptsFit(cfg, t, t.phase.items) {
        NoCrashOverRuns(m, cfg, s, events);
      }
    }
  }

  /** How many newcomers make up a full captured batch beside the returned request. */
  function Others(chunk: Positive, budget: Positive): nat {
    if chunk == 1 then 0 else budget - 1
  }

  lemma {:induction false} SomethingRaises(chunk: Positive, budget: Positive, limit: int)
    requires !TakesAll(chunk, budget, limit)
    ensures !NothingRaised(chunk, budget, limit)
  {
    hide Run, Started, CohortEvents, ReturnEvents, Execute, GraphBucket, Crowding, Initial, Startable, PrefillsFirst,
      Successor, PromptsFit, ExecuteStep;
    SmallBuckets();
    var n, q := Others(chunk, budget), (limit - 1) / budget;
    var cfg, w := GraphConfig(chunk, budget, limit, LongestLast), GraphCrowd(limit);
    BothPrefillsFirst();
    GraphCrowding(cfg, chunk, budget, limit, LongestLast);
    CohortCrashes(0, cfg, w, q, n);
    var t := Run(Successor(0), cfg, Started(0, w.total), ReturnEvents(w, q) + CohortEvents(n, w.max));
    assert !Completes(Successor(0), cfg, t);
  }

  /**
   * Exactly which limits make graph mode take every plan of every policy: one place; or two or more tokens per
   * chunk with a budget that is above the active limit, is two, or is the size of no captured batch.
   */
  lemma {:induction false} RaisesExactly(chunk: Positive, budget: Positive, limit: int)
    ensures NothingRaised(chunk, budget, limit) <==> TakesAll(chunk, budget, limit)
  {
    if TakesAll(chunk, budget, limit) {
      NothingRaises(chunk, budget, limit);
    } else {
      SomethingRaises(chunk, budget, limit);
    }
  }

  // -- whole prompts in one plan -----------------------------------------------------------------------------

  function Ones(n: nat): seq<Token> {
    seq(n, k => 1)
  }

  /** A resident that has not been fed, its prompt `n` ones. */
  function Untouched(n: nat, maxOut: int, state: RequestState): Brief {
    Brief(Ones(n), maxOut, [], 0, state, false, false)
  }

  function WholeItem(n: nat, i: nat): BatchItem {
    BatchItem(i, Ones(n), 0, true, false)
  }

  lemma {:induction false} WholeItemFor(cfg: Config, s: Sys, v: Scene, i: nat, n: Positive, maxOut: int,
                                        budget: Positive)
    requires Looks(s, v) && i < |v.reqs| && v.reqs[i] == Untouched(n, maxOut, Prefill) && n <= cfg.chunk && n <= budget
    ensures v.Runs(i) && s.Get(i).fed < |s.Get(i).Known()|
    ensures ItemFor(cfg, s, CandidateAt(v, i), budget) == WholeItem(n, i)
  {
    assert BriefOf(s.reqs[i]) == v.reqs[i];
    var known := s.reqs[i].Known();
    assert known == Ones(n) && known[0..0 + n] == known;
  }

  // -- a request that fits, rejected ---------------------------------------------------------------------------

  function Pair(total: Positive, phase: Phase, second: RequestState): Scene {
    Scene(BLOCK, total, [Untouched(BLOCK * total, 1, Prefill), Untouched(BLOCK * total, 1, second)], [], [0, 1], phase)
  }

  function PairItems(total: Positive): seq<BatchItem> {
    [WholeItem(BLOCK * total, 0), WholeItem(BLOCK * total, 1)]
  }

  lemma {:induction false} PairPlan(cfg: Config, s: Sys, total: Positive)
    requires Looks(s, Pair(total, Idle, Prefill)) && cfg.priority == DecodeFirst
    requires cfg.chunk >= BLOCK * total && cfg.budget >= 2 * BLOCK * total
    ensures BuildPlan(cfg, s) == PairItems(total)
  {
    var v, n := Pair(total, Idle, Prefill), BLOCK * total;
    WholeItemFor(cfg, s, v, 0, n, 1, cfg.budget);
    WholeItemFor(cfg, s, v, 1, n, 1, cfg.budget - n);
    CandidatesShown(s, v, [0, 1]);
    hide Looks, Pair, ItemFor, Fill;
    var a, b := CandidateAt(v, 0), CandidateAt(v, 1);
    assert CandidatesAt(v, [0, 1]) == [a, b];
    PairOrdered(a, b);
    SortedAlready(DecodeFirst, [a, b]);
    FillTurnOf(cfg, s, [a, b], cfg.budget);
    FillTurnOf(cfg, s, [b], cfg.budget - n);
    assert [a, b][1..] == [b] && [b][1..] == [];
    NothingFilled(cfg, s, [], cfg.budget - n - n);
    PairActive(s, total);
  }

  lemma {:induction false} PairActive(s: Sys, total: Positive)
    requires Looks(s, Pair(total, Idle, Prefill))
    ensures s.active == [0, 1]
  {
  }

  lemma {:induction false} PairOrdered(a: Candidate, b: Candidate)
    requires !a.decode && !b.decode
    ensures Ordered(DecodeFirst, [a, b])
  {
    assert [1][1..] == [];
  }

  lemma {:induction false} PairDemand(total: Positive, phase: Phase)
    ensures Demand(Pair(total, phase, Prefill), PairItems(total)) == 2 * total
  {
    var v, items := Pair(total, phase, Prefill), PairItems(total);
    BlocksForExact(BLOCK, total);
    SmallBlocks();
    HeldSum(v, [0, 1]);
    SumOfSame(HeldBlocks(v, [0, 1]), 0);
    SumOfSame(Extras(v, items), total);
  }

  lemma {:induction false} PairQueued(m: Model, cfg: Config, total: Positive)
    requires Roomy(cfg, 2, BLOCK * total + 1)
    ensures var e := ESubmit(Ones(BLOCK * total), 1, None, 0);
      Shows(m, cfg, Run(m, cfg, Started(m.layers, total), [e, e]),
        Scene(BLOCK, total, [NewBrief(Ones(BLOCK * total), 1), NewBrief(Ones(BLOCK * total), 1)], [0, 1], [], Idle))
  {
    hide Shows, Run, Step, Started;
    var s0, p := Started(m.layers, total), Ones(BLOCK * total);
    var e := ESubmit(p, 1, None, 0);
    StartedShows(m, cfg, total);
    EmptyRun(m, cfg, s0);
    RunOne(m, cfg, s0, [], e);
    RunOne(m, cfg, s0, [e], e);
    assert [] + [e] == [e] && [e] + [e] == [e, e];
    var v := Scene(BLOCK, total, [], [], [], Idle);
    SubmitShows(m, cfg, s0, v, p, 1);
    SubmitShows(m, cfg, Step(m, cfg, s0, e), Submitted(v, p, 1), p, 1);
    assert Submitted(Submitted(v, p, 1), p, 1) == Scene(BLOCK, total, [NewBrief(p, 1), NewBrief(p, 1)], [0, 1], [],
      Idle);
  }

  lemma {:induction false} PairIn(cfg: Config, total: Positive)
    requires cfg.activeLimit >= 2
    ensures var p := Ones(BLOCK * total);
      var v := Scene(BLOCK, total, [NewBrief(p, 1), NewBrief(p, 1)], [0, 1], [], Idle);
      AllAdmissible(cfg, v) && AllIn(v) == Pair(total, Idle, Prefill)
  {
    var p := Ones(BLOCK * total);
    var v := Scene(BLOCK, total, [NewBrief(p, 1), NewBrief(p, 1)], [0, 1], [], Idle);
    assert AllIn(v).reqs == Pair(total, Idle, Prefill).reqs;
  }

  lemma {:induction false} PairIterates(m: Model, cfg: Config, s: Sys, total: Positive)
    requires var p := Ones(BLOCK * total);
      Shows(m, cfg, s, Scene(BLOCK, total, [NewBrief(p, 1), NewBrief(p, 1)], [0, 1], [], Idle))
    requires cfg.priority == DecodeFirst && cfg.chunk >= BLOCK * total && cfg.budget >= 2 * BLOCK * total
    requires cfg.activeLimit >= 2 && cfg.queueTimeout >= 0
    ensures Shows(m, cfg, Step(m, cfg, s, EIterate(0)), Pair(total, Planned(PairItems(total)), Prefill))
  {
    hide AdmitWaiting, BuildPlan, Inv, Step, AllIn, Core, Looks, AllAdmissible, PairItems;
    var p := Ones(BLOCK * total);
    PairIn(cfg, total);
    IterateAdmits(m, cfg, s, Scene(BLOCK, total, [NewBrief(p, 1), NewBrief(p, 1)], [0, 1], [], Idle));
    StepInv(m, cfg, s, EIterate(0));
    var t := AdmitWaiting(cfg, s, 0);
    PairPlan(cfg, t, total);
    PairItemsSome(total);
    PhaseLooks(t, Pair(total, Idle, Prefill), Planned(PairItems(total)));
  }

  lemma {:induction false} PairItemsSome(total: Positive)
    ensures PairItems(total) != []
  {
  }

  lemma {:induction false} PairCancelled(m: Model, cfg: Config, s: Sys, total: Positive)
    requires Looks(s, Pair(total, Landed(PairItems(total), CapacityError), Prefill))
    ensures Looks(Step(m, cfg, s, ECancel(1, 0)), Pair(total, Landed(PairItems(total), CapacityError), Cancelled))
  {
    assert Quiet(s.reqs[1]) && BriefOf(s.reqs[1]) == Pair(total, Landed(PairItems(total), CapacityError),
      Prefill).reqs[1];
    assert s.InFlight()[1] == 1;
  }

  lemma {:induction false} PairRejected(m: Model, cfg: Config, s: Sys, total: Positive)
    requires Shows(m, cfg, s, Pair(total, Landed(PairItems(total), CapacityError), Cancelled))
    ensures var t := Step(m, cfg, s, EPost(0));
      && t.Get(0).rejected
      && 1 < |t.reqs| && t.reqs[1].state.Cancelled? && t.reqs[1].finalized == 0
  {
    hide Inv;
    var v := Pair(total, Landed(PairItems(total), CapacityError), Cancelled);
    assert BriefOf(s.reqs[0]) == v.reqs[0] && BriefOf(s.reqs[1]) == v.reqs[1];
    assert ItemIds(PairItems(total))[0] == 0;
    OneLiving(s, 0, 1);
    PostRejects(cfg, s, 0, 0);
    LeftBehindExactly(m, cfg, s, 0, 1);
    PostCapacityPasses(cfg, s.(phase := Idle), PairItems(total), 0, 1);
  }

  lemma {:induction false} OneLiving(s: Sys, a: nat, b: nat)
    requires !s.Get(a).Terminal() && s.Get(b).Terminal()
    ensures Living(s, [a, b]) == [a]
  {
    assert [a, b][..1] == [a] && [a][..0] == [];
    assert Living(s, [a]) == [a];
  }

  /** Two prompts of the whole pool each; the second request is cancelled while their forward fails. */
  function PairEvents(total: Positive): seq<Event> {
    var e := ESubmit(Ones(BLOCK * total), 1, None, 0);
    [e, e] + [EIterate(0)] + [EExecute] + [ECancel(1, 0)] + [EPost(0)]
  }

  /**
   * Under the production policies, with any model, pool and any other limits: from an engine that can start, a run of
   * six events that rejects request 0 for capacity although the pool has the blocks it needs; and that leaves
   * request 1 behind, terminal, resident and never finalized.
   */
  lemma {:induction false} FittingRejected(m: Model, cfg: Config, total: Positive)
    requires cfg.priority == DecodeFirst && cfg.chunk >= BLOCK * total && cfg.budget >= 2 * BLOCK * total
    requires cfg.activeLimit >= 2 && Roomy(cfg, 2, BLOCK * total + 1)
    ensures Initial(m, Started(m.layers, total))
    ensures cfg.maxModelLen <= 4096 && (cfg.graph ==> cfg.activeLimit <= total) ==>
      Startable(cfg, Started(m.layers, total))
    ensures var s := Run(m, cfg, Started(m.layers, total), PairEvents(total));
      && s.Get(0).rejected && BlocksFor(BLOCK, Cap(NewRequest(Ones(BLOCK * total), 1, None, 0))) <= total
      && 1 < |s.reqs| && 1 in s.active && s.reqs[1].Terminal() && s.reqs[1].finalized == 0 && s.phase.Idle?
  {
    hide Shows, Run, Step, Started, Demand, PairItems, Looks, Pair, Initial, Startable;
    var s0, e := Started(m.layers, total), ESubmit(Ones(BLOCK * total), 1, None, 0);
    StartedShows(m, cfg, total);
    PairQueued(m, cfg, total);
    var s := Run(m, cfg, s0, [e, e]);
    RunOne(m, cfg, s0, [e, e], EIterate(0));
    RunOne(m, cfg, s0, [e, e] + [EIterate(0)], EExecute);
    RunOne(m, cfg, s0, [e, e] + [EIterate(0)] + [EExecute], ECancel(1, 0));
    RunOne(m, cfg, s0, [e, e] + [EIterate(0)] + [EExecute] + [ECancel(1, 0)], EPost(0));
    PairFails(m, cfg, s, total);
    BlocksForExact(BLOCK, total);
    RunInv(m, cfg, s0, PairEvents(total));
    LeftResident(m, cfg, Run(m, cfg, s0, PairEvents(total)), 1);
  }

  lemma {:induction false} PairFails(m: Model, cfg: Config, s: Sys, total: Positive)
    requires var p := Ones(BLOCK * total);
      Shows(m, cfg, s, Scene(BLOCK, total, [NewBrief(p, 1), NewBrief(p, 1)], [0, 1], [], Idle))
    requires cfg.priority == DecodeFirst && cfg.chunk >= BLOCK * total && cfg.budget >= 2 * BLOCK * total
    requires cfg.activeLimit >= 2 && cfg.queueTimeout >= 0
    ensures var t := Step(m, cfg, Step(m, cfg, Step(m, cfg, Step(m, cfg, s, EIterate(0)), EExecute), ECancel(1, 0)),
      EPost(0));
      && t.Get(0).rejected && t.phase.Idle?
      && 1 < |t.reqs| && t.reqs[1].state.Cancelled? && t.reqs[1].finalized == 0
  {
    hide Step, Demand, PairItems, Looks, Inv;
    PairIterates(m, cfg, s, total);
    var a := Step(m, cfg, s, EIterate(0));
    PairDemand(total, Planned(PairItems(total)));
    FullLands(m, cfg, a, Pair(total, Planned(PairItems(total)), Prefill), PairItems(total));
    var b := Step(m, cfg, a, EExecute);
    PairCancelled(m, cfg, b, total);
    StepInv(m, cfg, b, ECancel(1, 0));
    PairRejected(m, cfg, Step(m, cfg, b, ECancel(1, 0)), total);
    LandedThenIdle(m, cfg, Step(m, cfg, b, ECancel(1, 0)),
      Pair(total, Landed(PairItems(total), CapacityError), Cancelled));
  }

  lemma {:induction false} LandedThenIdle(m: Model, cfg: Config, s: Sys, v: Scene)
    requires Looks(s, v) && v.phase.Landed?
    ensures Step(m, cfg, s, EPost(0)).phase.Idle?
  {
    PostPhase(cfg, s, 0);
  }

  lemma {:induction false} LeftResident(m: Model, cfg: Config, s: Sys, i: nat)
    requires Inv(m, cfg, s) && i < |s.reqs| && s.reqs[i].Terminal() && s.reqs[i].finalized == 0
    ensures i in s.active
  {
    InvParts(m, cfg, s);
  }

  // -- a prompt too long for the table tensor -------------------------------------------------------------------

  /** Prompts of `n` tokens never outgrow the table tensor of a context of `length`. */
  ghost predicate PromptSafe(n: nat, length: Positive) {
    forall m, cfg: Config, s, events :: cfg.graph && cfg.maxModelLen == length && Startable(cfg, s) && Initial(m, s) ==>
      NarrowFor(cfg, Run(m, cfg, s, events), n)
  }

  /** No planned item of a prompt of `n` tokens ends beyond the blocks of a full context. */
  ghost predicate NarrowFor(cfg: Config, s: Sys, n: nat) {
    s.phase.Planned? ==> forall k :: 0 <= k < |s.phase.items| && |s.Get(s.phase.items[k].id).prompt| == n ==>
      BlocksFor(BLOCK, s.phase.items[k].End()) <= BlocksFor(BLOCK, cfg.maxModelLen)
  }

  lemma {:induction false} PromptHolds(n: nat, length: Positive)
    requires n <= BlocksFor(BLOCK, length) * BLOCK
    ensures PromptSafe(n, length)
  {
    hide Run, Initial, NarrowFor;
    forall m, cfg: Config, s, events | cfg.graph && cfg.maxModelLen == length && Startable(cfg, s) && Initial(m, s)
      ensures NarrowFor(cfg, Run(m, cfg, s, events), n) {
      InitialInv(m, cfg, s);
      ShapeOverRuns(m, cfg, s, events);
      RunInv(m, cfg, s, events);
      WorkAtEnd(m, cfg, s, events);
      ShapedAs(m, cfg, Run(m, cfg, s, events), n);
    }
  }

  lemma {:induction false} ShapedAs(m: Model, cfg: Config, s: Sys, n: nat)
    requires Inv(m, cfg, s) && WorkOk(cfg, PointOf(s)) && n <= TableRoom(cfg, BLOCK)
    ensures NarrowFor(cfg, s, n)
  {
    hide Inv, BlocksFor, Cap;
    if s.phase.Planned? {
      var items := s.phase.items;
      forall k | 0 <= k < |items| && |s.Get(items[k].id).prompt| == n
        ensures BlocksFor(BLOCK, items[k].End()) <= BlocksFor(BLOCK, cfg.maxModelLen) {
        assert items[k] in items;
        ItemUnderCap(m, cfg, s, items[k]);
        CapInRoom(cfg, s.reqs[items[k].id], BLOCK, items[k].End());
      }
    }
  }

  function LongScene(total: Positive, n: nat, maxOut: int): Scene {
    Scene(BLOCK, total, [Untouched(n, maxOut, Prefill)], [], [0], Idle)
  }

  lemma {:induction false} LongPlan(cfg: Config, s: Sys, total: Positive, n: Positive, maxOut: int)
    requires Looks(s, LongScene(total, n, maxOut)) && cfg.chunk >= n && cfg.budget >= n
    ensures BuildPlan(cfg, s) == [WholeItem(n, 0)]
  {
    var v := LongScene(total, n, maxOut);
    WholeItemFor(cfg, s, v, 0, n, maxOut, cfg.budget);
    CandidatesShown(s, v, [0]);
    assert s.active == [0];
    hide Looks, ItemFor, Fill;
    var c := CandidateAt(v, 0);
    assert CandidatesAt(v, [0]) == [c];
    SortedAlready(cfg.priority, [c]);
    FillTurnOf(cfg, s, [c], cfg.budget);
    assert [c][1..] == [];
    NothingFilled(cfg, s, [], cfg.budget - n);
  }

  lemma {:induction false} LongIn(cfg: Config, total: Positive, n: nat, maxOut: int)
    requires cfg.activeLimit >= 1
    ensures var v := Submitted(Scene(BLOCK, total, [], [], [], Idle), Ones(n), maxOut);
      AllAdmissible(cfg, v) && AllIn(v) == LongScene(total, n, maxOut)
  {
    var v := Submitted(Scene(BLOCK, total, [], [], [], Idle), Ones(n), maxOut);
    assert AllIn(v).reqs == LongScene(total, n, maxOut).reqs;
  }

  /** The run that plans the whole of a prompt, submitted with this output limit. */
  function LongEvents(n: nat, maxOut: int): seq<Event> {
    [ESubmit(Ones(n), maxOut, None, 0), EIterate(0)]
  }

  lemma {:induction false} LongPlanned(m: Model, cfg: Config, total: Positive, n: Positive, maxOut: int)
    requires cfg.chunk >= n && cfg.budget >= n && cfg.activeLimit >= 1 && cfg.maxQueue >= 1 && cfg.queueTimeout >= 0
    requires n + maxOut <= cfg.maxModelLen
    ensures Shows(m, cfg, Run(m, cfg, Started(m.layers, total), LongEvents(n, maxOut)),
      LongScene(total, n, maxOut).(phase := Planned([WholeItem(n, 0)])))
  {
    hide Run, Started, Inv, Step, BuildPlan, AdmitWaiting, Core, AllAdmissible, Looks;
    var s0, p := Started(m.layers, total), Ones(n);
    var a := ESubmit(p, maxOut, None, 0);
    StartedShows(m, cfg, total);
    EmptyRun(m, cfg, s0);
    RunOne(m, cfg, s0, [], a);
    RunOne(m, cfg, s0, [a], EIterate(0));
    assert [] + [a] == [a] && [a] + [EIterate(0)] == LongEvents(n, maxOut);
    var v := Scene(BLOCK, total, [], [], [], Idle);
    SubmitShows(m, cfg, s0, v, p, maxOut);
    LongIn(cfg, total, n, maxOut);
    var s := Step(m, cfg, s0, a);
    IterateAdmits(m, cfg, s, Submitted(v, p, maxOut));
    StepInv(m, cfg, s, EIterate(0));
    var t := AdmitWaiting(cfg, s, 0);
    LongPlan(cfg, t, total, n, maxOut);
    PhaseLooks(t, LongScene(total, n, maxOut), Planned([WholeItem(n, 0)]));
  }

  lemma {:induction false} LongDemand(total: Positive, n: nat, maxOut: int, phase: Phase)
    ensures Demand(LongScene(total, n, maxOut).(phase := phase), [WholeItem(n, 0)]) == BlocksFor(BLOCK, n)
  {
    var v, items := LongScene(total, n, maxOut).(phase := phase), [WholeItem(n, 0)];
    SmallBlocks();
    HeldSum(v, [0]);
    SumOfSame(HeldBlocks(v, [0]), 0);
    var extras := Extras(v, items);
    assert extras == [BlocksFor(BLOCK, n)] && extras[..0] == [];
  }

  /**
   * A negative output limit lets a prompt longer than the context through. If it is longer than the blocks of the
   * context, then in graph mode, with any model and policies: from an engine that can start, a run of two events whose
   * forward raises.
   */
  lemma {:induction false} LongPromptRaises(m: Model, cfg: Config, total: Positive, n: Positive)
    requires cfg.graph && cfg.chunk >= n && cfg.budget >= n && cfg.activeLimit >= 1 && cfg.queueTimeout >= 0
    requires cfg.maxQueue >= 1 && total >= BlocksFor(BLOCK, n) > BlocksFor(BLOCK, cfg.maxModelLen)
    ensures Initial(m, Started(m.layers, total))
    ensures cfg.maxModelLen <= 4096 && cfg.activeLimit <= total ==> Startable(cfg, Started(m.layers, total))
    ensures var s := Run(m, cfg, Started(m.layers, total), LongEvents(n, cfg.maxModelLen - n));
      && s.phase == Planned([WholeItem(n, 0)]) && |s.Get(0).prompt| == n
      && ExecuteStep(m, cfg, s, s.phase.items).phase.outcome.Crashed?
  {
    hide Run, Started, Inv, Looks, ExecuteStep, BlocksFor, LongEvents, Initial, Startable, Demand, Core, PlanFor, Grown,
      Cache.EnsureCapacity, Cache.Valid, Raises, Untouched;
    StartedShows(m, cfg, total);
    LongPlanned(m, cfg, total, n, cfg.maxModelLen - n);
    var s, items := Run(m, cfg, Started(m.layers, total), LongEvents(n, cfg.maxModelLen - n)), [WholeItem(n, 0)];
    var v := LongScene(total, n, cfg.maxModelLen - n).(phase := Planned(items));
    LongDemand(total, n, cfg.maxModelLen - n, Planned(items));
    FullShown(m, cfg, s, v, items);
    ShownParts(m, cfg, s, v);
    LongLook(s, v, n, cfg.maxModelLen - n);
    PlannedGrowth(m, cfg, s, items);
    assert items[0].End() == n;
    CrashHere(m, cfg, s, items);
  }

  lemma {:induction false} LongLook(s: Sys, v: Scene, n: nat, maxOut: int)
    requires Looks(s, v) && v.reqs == [Untouched(n, maxOut, Prefill)]
    ensures |s.Get(0).prompt| == n && s.cache.size == v.size
  {
    assert BriefOf(s.reqs[0]) == v.reqs[0];
  }

  lemma {:induction false} PromptFails(n: nat, length: Positive)
    requires n > BlocksFor(BLOCK, length) * BLOCK && length <= 4096
    ensures !PromptSafe(n, length)
  {
    hide Run, Started, LongEvents, Initial, Startable, ExecuteStep, Successor;
    var total: Positive := BlocksFor(BLOCK, n);
    var cfg := Config(length, 1, 1, n, n, 0, 0, 0, true, DecodeFirst, LargestSequence);
    BlocksForIsLeast(BLOCK, n, BlocksFor(BLOCK, length));
    LayersOf(0);
    LongPromptRaises(Successor(0), cfg, total, n);
    var s := Run(Successor(0), cfg, Started(0, total), LongEvents(n, length - n));
    assert s.phase.items[0] == WholeItem(n, 0) && s.phase.items[0].End() == n;
    assert !NarrowFor(cfg, s, n);
  }

  /** Exactly which prompts never outgrow the table tensor: those the blocks of the context hold. */
  lemma {:induction false} PromptExactly(n: nat, length: Positive)
    requires length <= 4096
    ensures PromptSafe(n, length) <==> n <= BlocksFor(BLOCK, length) * BLOCK
  {
    if n <= BlocksFor(BLOCK, length) * BLOCK {
      PromptHolds(n, length);
    } else {
      PromptFails(n, length);
    }
  }

  // -- an event nobody delivers --------------------------------------------------------------------------------

  lemma {:induction false} TokenThenStop(r: Req, token: Token)
    requires r.pending == [] && r.queue == [] && r.finalized == 0
    ensures FinalRecord(WithToken(r, token, 1, 0), 1, 0).pending == [STOP]
    ensures FinalRecord(WithToken(r, token, 1, 0), 1, 0).finalized == 1
  {
    var e := StreamEvent(if EosHit(r, token) then None else Some(token), false);
    var p := r.(generated := r.generated + [token], pending := [e]);
    assert r.pending + [e] == [e] && [e][1..] == [] && [] + [STOP] == [STOP];
    var q := p.(queue := [] + [e], pending := []);
    assert Drained(p, 1, 0) == Drained(q, 1, 0) == q.(stalled := None);
    var w := WithToken(r, token, 1, 0);
    assert w.pending == [] && |w.queue| == 1;
    assert Drained(w.(pending := [STOP]), 1, 0).pending == [STOP];
    DrainedFacts(w.(pending := [STOP]), 1, 0);
  }

  /** One token asked for, through a queue of one. */
  function OneTokenEvents(): seq<Event> {
    LongEvents(1, 1) + [EExecute] + [EPost(0)]
  }

  lemma {:induction false} OnlyItemPosted(cfg: Config, s: Sys, outputs: map<nat, Token>)
    requires |s.reqs| == 1 && !s.reqs[0].Terminal() && s.reqs[0].maxOut == 1 && s.reqs[0].generated == []
    requires s.reqs[0].pending == [] && s.reqs[0].queue == [] && s.reqs[0].finalized == 0
    requires cfg.streamCapacity == 1 && 0 in outputs
    ensures var t := PostRan(cfg, s, [WholeItem(1, 0)], outputs, 0);
      |t.reqs| == 1 && t.reqs[0].finalized == 1 && t.reqs[0].pending == [STOP]
  {
    hide Teardown, WithToken, FinalRecord;
    var item := WholeItem(1, 0);
    RecomputedFacts(s.reqs[0], item);
    RecomputedOnly(s.reqs[0], item);
    TokenThenStop(Recomputed(s.reqs[0], item), outputs[0]);
    assert [item][1..] == [];
    var u := s.Set(0, Recomputed(s.Get(0), item));
    var t := AfterToken(cfg, u, 0, outputs[0], 0);
    assert PostItem(cfg, s, item, outputs, 0) == t;
    assert PostRan(cfg, s, [item], outputs, 0) == PostRan(cfg, t, [], outputs, 0) == t;
  }

  lemma {:induction false} RecomputedOnly(r: Req, item: BatchItem)
    ensures var q := Recomputed(r, item); q.pending == r.pending && q.queue == r.queue && q.finalized == r.finalized
  {
  }

  /**
   * With a stream queue of one event, any model and any policies: from an engine that can start, a run of four events
   * after which a completed request has its terminator pending; and there it stays, whatever follows.
   */
  lemma {:induction false} StopUndelivered(m: Model, cfg: Config, total: Positive, after: seq<Event>)
    requires cfg.streamCapacity == 1 && cfg.activeLimit >= 1 && cfg.queueTimeout >= 0 && cfg.maxQueue >= 1
    requires cfg.maxModelLen >= 2
    ensures Initial(m, Started(m.layers, total))
    ensures cfg.maxModelLen <= 4096 && (cfg.graph ==> cfg.activeLimit <= total) ==>
      Startable(cfg, Started(m.layers, total))
    ensures var s := Run(m, cfg, Started(m.layers, total), OneTokenEvents()); var t := Run(m, cfg, s, after);
      && 0 < |s.reqs| && s.reqs[0].finalized == 1 && s.reqs[0].pending == [STOP]
      && 0 < |t.reqs| && t.reqs[0].pending == [STOP]
  {
    hide Run, Started, Step, LongEvents, Shows, Initial, Startable;
    var s0, s := Started(m.layers, total), Run(m, cfg, Started(m.layers, total), LongEvents(1, 1));
    StartedShows(m, cfg, total);
    LongPlanned(m, cfg, total, 1, 1);
    NothingSaidYet(m, cfg, s0, LongEvents(1, 1), total);
    OneForward(m, cfg, s, total);
    RunOne(m, cfg, s0, LongEvents(1, 1), EExecute);
    RunOne(m, cfg, s0, LongEvents(1, 1) + [EExecute], EPost(0));
    PendingForGood(m, cfg, s0, OneTokenEvents(), after, 0);
  }

  lemma {:induction false} NothingSaidYet(m: Model, cfg: Config, s0: Sys, events: seq<Event>, total: Positive)
    requires Initial(m, s0)
    requires Shows(m, cfg, Run(m, cfg, s0, events), LongScene(total, 1, 1).(phase := Planned([WholeItem(1, 0)])))
    ensures var s := Run(m, cfg, s0, events); |s.reqs| == 1 && s.reqs[0].queue == [] && s.reqs[0].finalized == 0
  {
    hide Run;
    var s, v := Run(m, cfg, s0, events), LongScene(total, 1, 1).(phase := Planned([WholeItem(1, 0)]));
    assert BriefOf(s.reqs[0]) == v.reqs[0];
    StreamsOverRuns(m, cfg, s0, events, 0);
    assert s.active[0] == 0;
    InvParts(m, cfg, s);
  }

  lemma {:induction false} OneForward(m: Model, cfg: Config, s: Sys, total: Positive)
    requires Shows(m, cfg, s, LongScene(total, 1, 1).(phase := Planned([WholeItem(1, 0)])))
    requires cfg.streamCapacity == 1 && |s.reqs| == 1 && s.reqs[0].queue == [] && s.reqs[0].finalized == 0
    ensures var t := Step(m, cfg, Step(m, cfg, s, EExecute), EPost(0));
      |t.reqs| == 1 && t.reqs[0].finalized == 1 && t.reqs[0].pending == [STOP]
  {
    hide Inv, Execute, Step, PostRan, FedAll, Raises, Demand, CompletedCall, RightOutputs, Looks, WithinContext;
    var items := [WholeItem(1, 0)];
    var v := LongScene(total, 1, 1).(phase := Planned(items));
    ShownParts(m, cfg, s, v);
    LongDemand(total, 1, 1, Planned(items));
    SmallBlocks();
    OneWithin(cfg);
    LoneSample(cfg.graph, items[0]);
    ForwardShown(m, cfg, s, v, items);
    var (outcome, d) := Execute(m, cfg.graph, cfg.maxModelLen, s.cache, items);
    NamesTheItem(m, s.cache, d, Hist(s), items, outcome.outputs);
    ForwardStep(m, cfg, s, items, outcome.outputs, d);
    OneFed(s, v, items);
    OnlyItemPosted(cfg, FedAll(s, items).(cache := d, phase := Idle, metrics := Step(m, cfg, s, EExecute).metrics),
      outcome.outputs);
  }

  lemma {:induction false} OneWithin(cfg: Config)
    ensures WithinContext(cfg, [WholeItem(1, 0)])
  {
  }

  lemma {:induction false} NamesTheItem(m: Model, c: Cache, d: Cache, hist: seq<seq<Token>>, items: seq<BatchItem>,
                                        outputs: map<nat, Token>)
    requires CompletedCall(m, c, d, hist, items, outputs) && items == [WholeItem(1, 0)]
    ensures 0 in outputs
  {
    assert items[0].sample;
  }

  lemma {:induction false} OneFed(s: Sys, v: Scene, items: seq<BatchItem>)
    requires Looks(s, v) && v.reqs == [Untouched(1, 1, Prefill)] && items == [WholeItem(1, 0)]
    ensures var f := FedAll(s, items);
      && |f.reqs| == 1 && f.reqs[0] == s.reqs[0].(fed := f.reqs[0].fed, executed := f.reqs[0].executed)
    ensures !s.reqs[0].Terminal() && s.reqs[0].maxOut == 1 && s.reqs[0].generated == [] && s.reqs[0].pending == []
  {
    assert items[..0] == [] && BriefOf(s.reqs[0]) == v.reqs[0] && Quiet(s.reqs[0]);
    assert FedAll(s, []) == s;
  }
}
