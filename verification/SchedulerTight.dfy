/** Demand-paging tightness and progress, over every run. */
module SchedulerTight {
  import opened Lists
  import opened Allocator
  import opened Transformer
  import opened KvCache
  import opened KvCacheValid
  import opened KvCacheContent
  import opened KvCacheStats
  import opened Packing
  import opened Runner
  import opened Scheduling
  import opened SchedulerCore
  import opened SchedulerPlan
  import opened SchedulerRun
  import opened SchedulerMoves
  import opened SchedulerWork
  import opened SchedulerCapacity

  /**
   * One resident: its length is what it was fed, its table exactly that many blocks, and no wider than a full
   * context.
   */
  ghost predicate TightResident(cfg: Config, s: Sys, i: nat) {
    var r, c := s.Get(i), s.cache;
    && i in c.tables && i in c.lengths && c.lengths[i] == r.fed
    && |c.tables[i]| == BlocksFor(c.size, r.fed) && |c.tables[i]| * c.size < r.fed + c.size
    && (|r.prompt| <= TableRoom(cfg, c.size) ==> |c.tables[i]| <= BlocksFor(c.size, cfg.maxModelLen))
  }

  /** The tokens that the blocks of a full context hold. */
  function TableRoom(cfg: Config, size: Positive): nat {
    BlocksFor(size, cfg.maxModelLen) * size
  }

  /** A prompt the blocks of a full context hold never outgrows them, whatever output limit submission let through. */
  lemma {:induction false} CapInRoom(cfg: Config, r: Req, size: Positive, n: nat)
    requires ReqWork(cfg, r) && |r.prompt| <= TableRoom(cfg, size) && n <= Cap(r)
    ensures BlocksFor(size, n) <= BlocksFor(size, cfg.maxModelLen)
  {
    BlocksForIsLeast(size, cfg.maxModelLen, BlocksFor(size, cfg.maxModelLen));
    BlocksForIsLeast(size, n, BlocksFor(size, cfg.maxModelLen));
  }

  lemma {:induction false} ResidentTight(m: Model, cfg: Config, s: Sys, items: seq<BatchItem>, i: nat)
    requires Core(m, cfg, s, items, Unfed) && i in s.active && i < |s.reqs| && ReqWork(cfg, s.reqs[i])
    ensures TightResident(cfg, s, i)
    ensures s.Get(i).Terminal() || Progress(s.Get(i))
  {
    assert LengthOk(s, i) && Settled(s, i);
    BlockWaste(s.cache.size, s.Get(i).fed, |s.cache.tables[i]|);
    if |s.reqs[i].prompt| <= TableRoom(cfg, s.cache.size) {
      CapInRoom(cfg, s.reqs[i], s.cache.size, s.reqs[i].fed);
    }
  }

  lemma {:induction false} TightState(m: Model, cfg: Config, s: Sys, items: seq<BatchItem>)
    requires Core(m, cfg, s, items, Unfed) && forall i :: 0 <= i < |s.reqs| ==> ReqWork(cfg, s.reqs[i])
    ensures ListsResidents(s.cache, s.active) && TablesTight(s.cache)
    ensures forall i :: i in s.active ==> TightResident(cfg, s, i) && (s.Get(i).Terminal() || Progress(s.Get(i)))
  {
    forall i | i in s.active ensures TightResident(cfg, s, i) && (s.Get(i).Terminal() || Progress(s.Get(i))) {
      ResidentTight(m, cfg, s, items, i);
    }
    forall r | r in s.cache.tables && r in s.cache.lengths
      ensures |s.cache.tables[r]| == BlocksFor(s.cache.size, s.cache.lengths[r]) {
      assert r in s.active;
      assert TightResident(cfg, s, r);
    }
  }

  /**
   * Demand-paging tightness and progress over every run, whenever no forward is being processed: the block
   * tables are exactly those of the active requests; each one's committed length is its fed count and its
   * table has exactly the blocks for it, so less than a block of it is waste and it is no wider than a full
   * context; every unfinished one has something left to feed, exactly one token when decoding; and the cache
   * wastes less than a block per resident.
   */
  lemma {:induction false} TightOverRuns(m: Model, cfg: Config, s: Sys, events: seq<Event>)
    requires Initial(m, s) && !Run(m, cfg, s, events).phase.Landed?
    ensures var s' := Run(m, cfg, s, events);
      && ListsResidents(s'.cache, s'.active)
      && (forall i :: i in s'.active ==> TightResident(cfg, s', i) && (s'.Get(i).Terminal() || Progress(s'.Get(i))))
      && |s'.cache.alloc.owner| * s'.cache.size <=
           LengthsOf(s'.cache, s'.active) + PrefixTokens(s'.cache.prefixes) + |s'.active| * (s'.cache.size - 1)
  {
    var s' := Run(m, cfg, s, events);
    WorkAtEnd(m, cfg, s, events);
    RunInv(m, cfg, s, events);
    InvParts(m, cfg, s');
    var items := if s'.phase.Planned? then s'.phase.items else [];
    TightState(m, cfg, s', items);
    StatsFacts(s'.cache, s'.active);
  }

  // -- the block-table tensor is always wide enough ---------------------------------------------

  lemma {:induction false} WidestCovers(tables: map<nat, seq<nat>>, items: seq<BatchItem>)
    ensures forall item :: item in items ==> |TableOf(tables, item.id)| <= WidestTable(tables, items)
  {
    if items != [] {
      var n := |items| - 1;
      WidestCovers(tables, items[..n]);
      assert items == items[..n] + [items[n]];
    }
  }

  /** In graph mode the tensor is as wide as a full context's blocks; otherwise as the widest table. */
  lemma {:induction false} WidthIs(graph: bool, maxModelLen: nat, g: Cache, items: seq<BatchItem>)
    ensures FitsWidth(graph, maxModelLen, g, items) <==>
      (graph ==> forall item :: item in items ==> |TableOf(g.tables, item.id)| <= BlocksFor(g.size, maxModelLen))
  {
    WidestCovers(g.tables, items);
  }

  /** The blocks for the last position each item reaches are within those of a full context, if that matters. */
  ghost predicate PlanFits(cfg: Config, size: Positive, items: seq<BatchItem>) {
    cfg.graph ==> forall k :: 0 <= k < |items| ==> BlocksFor(size, items[k].End()) <= BlocksFor(size, cfg.maxModelLen)
  }

  /** Every planned prompt fits the blocks of a full context, if that matters. */
  ghost predicate PromptsFit(cfg: Config, s: Sys, items: seq<BatchItem>) {
    cfg.graph ==> forall k :: 0 <= k < |items| ==> |s.Get(items[k].id).prompt| <= TableRoom(cfg, s.cache.size)
  }

  /** A grown table has the blocks for the end of its item and no more. */
  lemma {:induction false} GrownTable(m: Model, cfg: Config, s: Sys, items: seq<BatchItem>, g: Cache, k: nat)
    requires Core(m, cfg, s, items, Unfed) && Grown(s.cache, g, items) && k < |items|
    ensures |TableOf(g.tables, items[k].id)| == BlocksFor(s.cache.size, items[k].End())
  {
    hide Cache.Valid, Agrees, AllFaithful;
    assert ItemInFlight(m, cfg, s, items[k], Unfed);
    assert LengthOk(s, items[k].id) && Settled(s, items[k].id);
    BlocksForMonotone(s.cache.size, items[k].start, items[k].End());
  }

  /** The tables grown for a plan fit the table tensor if and only if the ends of its items do. */
  lemma {:induction false} GrownFits(m: Model, cfg: Config, s: Sys, items: seq<BatchItem>, g: Cache)
    requires Core(m, cfg, s, items, Unfed) && Grown(s.cache, g, items)
    ensures FitsWidth(cfg.graph, cfg.maxModelLen, g, items) <==> PlanFits(cfg, s.cache.size, items)
  {
    WidthIs(cfg.graph, cfg.maxModelLen, g, items);
    GrownSize(s.cache, g, items);
    hide Core, FitsWidth, Grown, BlocksFor;
    forall k | 0 <= k < |items| ensures |TableOf(g.tables, items[k].id)| == BlocksFor(s.cache.size, items[k].End()) {
      GrownTable(m, cfg, s, items, g, k);
    }
    assert forall k :: 0 <= k < |items| ==> items[k] in items;
    forall item | item in items ensures exists k :: 0 <= k < |items| && items[k] == item {
    }
  }

  lemma {:induction false} GrownSize(c: Cache, g: Cache, items: seq<BatchItem>)
    requires Grown(c, g, items)
    ensures g.size == c.size
  {
  }

  lemma {:induction false} PromptsSuffice(m: Model, cfg: Config, s: Sys, items: seq<BatchItem>)
    requires Inv(m, cfg, s) && s.phase == Planned(items) && WorkOk(cfg, PointOf(s)) && PromptsFit(cfg, s, items)
    ensures PlanFits(cfg, s.cache.size, items)
  {
    hide Inv, Core, BlocksFor;
    if cfg.graph {
      forall k | 0 <= k < |items|
        ensures BlocksFor(s.cache.size, items[k].End()) <= BlocksFor(s.cache.size, cfg.maxModelLen) {
        assert items[k] in items;
        ItemUnderCap(m, cfg, s, items[k]);
        CapInRoom(cfg, s.reqs[items[k].id], s.cache.size, items[k].End());
      }
    }
  }

  /**
   * Over every run, in every configuration and whatever output limits submission let through: a plan's tables, once
   * grown, fit the table tensor if and only if in graph mode no item ends beyond the blocks of a full context; and
   * none does if the planned prompts fit those blocks.
   */
  lemma {:induction false} WidthOverRuns(m: Model, cfg: Config, s: Sys, events: seq<Event>)
    requires Initial(m, s) && Run(m, cfg, s, events).phase.Planned?
    ensures var s' := Run(m, cfg, s, events); var (error, g) := s'.cache.EnsureCapacity(Required(s'.phase.items));
      error.None? ==> (FitsWidth(cfg.graph, cfg.maxModelLen, g, s'.phase.items) <==>
                       PlanFits(cfg, s'.cache.size, s'.phase.items))
    ensures var s' := Run(m, cfg, s, events);
      PromptsFit(cfg, s', s'.phase.items) ==> PlanFits(cfg, s'.cache.size, s'.phase.items)
  {
    hide Core, WorkOk, FitsWidth, Cache.EnsureCapacity, Grown, PlanFits, PromptsFit, Run;
    var s' := Run(m, cfg, s, events);
    RunInv(m, cfg, s, events);
    WorkAtEnd(m, cfg, s, events);
    PlannedGrowth(m, cfg, s', s'.phase.items);
    if s'.cache.EnsureCapacity(Required(s'.phase.items)).0.None? {
      GrownFits(m, cfg, s', s'.phase.items, s'.cache.EnsureCapacity(Required(s'.phase.items)).1);
    }
    if PromptsFit(cfg, s', s'.phase.items) {
      PromptsSuffice(m, cfg, s', s'.phase.items);
    }
  }

  lemma {:induction false} PlannedGrowth(m: Model, cfg: Config, s: Sys, items: seq<BatchItem>)
    requires Inv(m, cfg, s) && s.phase == Planned(items)
    ensures Core(m, cfg, s, items, Unfed)
    ensures var (error, g) := s.cache.EnsureCapacity(Required(items));
      && (error == Some(Full) || error == None)
      && (error == None ==> Grown(s.cache, g, items) && Agrees(m, g, Hist(s)) && ItemsOk(g.size, g.tables, Hist(s),
           items))
    ensures s.cache.Valid() && PlanFor(s.cache, Hist(s), items)
    ensures GraphComplete(cfg) ==> !Raises(cfg.graph, items)
  {
    hide Cache.EnsureCapacity, Grown, PlanFor, ItemsOk, GraphComplete, Raises;
    FlightPlan(m, cfg, s, items);
    assert s.cache.Valid() && Agrees(m, s.cache, Hist(s));
    hide Cache.Valid, Agrees;
    GrowForPlan(m, s.cache, Hist(s), items);
  }

  // -- exactly when a forward raises ----------------------------------------------------------------

  /**
   * Over every run and in every configuration: a planned forward raises something other than a capacity error if and
   * only if its tables grow and then either do not fit the table tensor or graph mode does not take the plan.
   */
  lemma {:induction false} CrashExactly(m: Model, cfg: Config, s: Sys, events: seq<Event>)
    requires Initial(m, s) && Run(m, cfg, s, events).phase.Planned?
    ensures var s' := Run(m, cfg, s, events); var items := s'.phase.items;
      ExecuteStep(m, cfg, s', items).phase.outcome.Crashed? <==>
        s'.cache.EnsureCapacity(Required(items)).0.None? &&
          (!PlanFits(cfg, s'.cache.size, items) || Raises(cfg.graph, items))
  {
    hide Run, PlanFits, Raises;
    RunInv(m, cfg, s, events);
    CrashHere(m, cfg, Run(m, cfg, s, events), Run(m, cfg, s, events).phase.items);
  }

  lemma {:induction false} CrashHere(m: Model, cfg: Config, s: Sys, items: seq<BatchItem>)
    requires Inv(m, cfg, s) && s.phase == Planned(items)
    ensures ExecuteStep(m, cfg, s, items).phase.outcome.Crashed? <==>
      s.cache.EnsureCapacity(Required(items)).0.None? &&
        (!PlanFits(cfg, s.cache.size, items) || Raises(cfg.graph, items))
  {
    hide Inv, Core, Cache.Valid, Agrees, Finish, FitsWidth, Cache.EnsureCapacity, RowsSafe, PlanFor, Packed, ItemsOk,
      Grown, CompletedCall, RightOutputs, PlanFits, Raises;
    PlannedGrowth(m, cfg, s, items);
    var (error, g) := s.cache.EnsureCapacity(Required(items));
    if error == None {
      GrownFits(m, cfg, s, items, g);
      FinishFacts(m, cfg.graph, cfg.maxModelLen, s.cache, g, Hist(s), items);
    }
  }

  /**
   * Over every run: when every planned prompt fits the blocks of a full context, under limits with which graph mode
   * takes every plan, a planned forward completes or reports capacity. Without graph mode it always does.
   */
  lemma {:induction false} NoCrashOverRuns(m: Model, cfg: Config, s: Sys, events: seq<Event>)
    requires Initial(m, s) && GraphComplete(cfg) && Run(m, cfg, s, events).phase.Planned?
    requires var s' := Run(m, cfg, s, events); PromptsFit(cfg, s', s'.phase.items)
    ensures var s' := Run(m, cfg, s, events); !ExecuteStep(m, cfg, s', s'.phase.items).phase.outcome.Crashed?
  {
    hide Run, PlanFits, PromptsFit, Raises, Core, WorkOk, Execute, GraphComplete;
    var s' := Run(m, cfg, s, events);
    RunInv(m, cfg, s, events);
    WorkAtEnd(m, cfg, s, events);
    PlannedGrowth(m, cfg, s', s'.phase.items);
    PromptsSuffice(m, cfg, s', s'.phase.items);
    CrashHere(m, cfg, s', s'.phase.items);
  }
}
