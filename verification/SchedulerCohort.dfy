/** The preempted request back among newcomers: plans graph mode does not take, or whose rows it misroutes. */
module SchedulerCohort {
  import opened Lists
  import opened Allocator
  import opened Transformer
  import opened KvCache
  import opened KvCacheContent
  import opened PackedForward
  import opened Packing
  import opened Padding
  import opened Runner
  import opened GraphRouting
  import opened Scheduling
  import opened SchedulerCore
  import opened SchedulerPlan
  import opened SchedulerRun
  import opened SchedulerScenes
  import opened SchedulerCrowd

  /** Request 0 and `n` newcomers queued. */
  function Queued(w: Stage, n: nat): Scene {
    Scene(BLOCK, w.total, [Brief([1], w.max, CountUp(w.told), 0, Waiting, true, false)] + w.gone +
      seq(n, k => NewBrief([10], w.max)), [0] + Numbered(w.Next(), n), [], Idle)
  }

  /** Everybody resident has been fed `g` tokens, 0 or 1; request 0 has more to re-feed. */
  function Cohort(w: Stage, n: nat, g: nat, phase: Phase): Scene {
    Scene(BLOCK, w.total, [Brief([1], w.max, CountUp(w.told), g, Prefill, true, false)] + w.gone +
      seq(n, k => Newcomer(w.max, g)), [], [0] + Numbered(w.Next(), n), phase)
  }

  lemma {:induction false} QueuedOneMore(w: Stage, n: nat)
    ensures Submitted(Queued(w, n), [10], w.max) == Queued(w, n + 1)
  {
    assert Numbered(w.Next(), n + 1) == Numbered(w.Next(), n) + [w.Next() + n];
    assert [0] + Numbered(w.Next(), n) + [w.Next() + n] == [0] + (Numbered(w.Next(), n) + [w.Next() + n]);
    assert Submitted(Queued(w, n), [10], w.max).reqs == Queued(w, n + 1).reqs;
  }

  lemma {:induction false} QueuedNone(w: Stage)
    ensures Queued(w, 0) == Returned(w)
  {
    assert [0] + Numbered(w.Next(), 0) == [0];
    assert Queued(w, 0).reqs == Returned(w).reqs;
  }

  lemma {:induction false} NewcomersQueue(m: Model, cfg: Config, s: Sys, events: seq<Event>, w: Stage, n: nat)
    requires Shows(m, cfg, Run(m, cfg, s, events), Returned(w)) && Roomy(cfg, n + 1, w.max + 1)
    ensures Shows(m, cfg, Run(m, cfg, s, events + Submits(n, w.max)), Queued(w, n))
  {
    hide Shows, Run, Step;
    if n == 0 {
      QueuedNone(w);
      assert events + Submits(0, w.max) == events;
    } else {
      NewcomersQueue(m, cfg, s, events, w, n - 1);
      var e, before := ESubmit([10], w.max, None, 0), events + Submits(n - 1, w.max);
      assert events + Submits(n, w.max) == before + [e];
      RunOne(m, cfg, s, before, e);
      SubmitShows(m, cfg, Run(m, cfg, s, before), Queued(w, n - 1), [10], w.max);
      QueuedOneMore(w, n - 1);
    }
  }

  /** Request 0 is request 0 of either, those gone are gone in either, the others are the newcomers. */
  lemma {:induction false} CohortAt(w: Stage, n: nat, g: nat, phase: Phase, i: nat)
    requires i < w.Next() + n
    ensures var q, v := Queued(w, n), Cohort(w, n, g, phase);
      && |q.reqs| == |v.reqs| == w.Next() + n && v.size == BLOCK
      && (i == 0 ==> v.reqs[i] == Brief([1], w.max, CountUp(w.told), g, Prefill, true, false) &&
                     q.reqs[i].(state := Prefill, fed := g) == v.reqs[i])
      && (0 < i < w.Next() ==> q.reqs[i] == v.reqs[i] == w.gone[i - 1])
      && (i >= w.Next() ==> v.reqs[i] == Newcomer(w.max, g) && q.reqs[i] == NewBrief([10], w.max))
      && (i in q.waiting <==> i == 0 || i >= w.Next())
  {
    var q := Queued(w, n);
    assert q.waiting[0] == 0;
    if i >= w.Next() {
      assert q.waiting[i - w.Next() + 1] == i;
    }
  }

  lemma {:induction false} QueuedIn(cfg: Config, w: Stage, n: nat)
    requires cfg.activeLimit >= n + 1
    ensures AllAdmissible(cfg, Queued(w, n)) && AllIn(Queued(w, n)) == Cohort(w, n, 0, Idle)
  {
    hide Queued, Cohort;
    var q, v := Queued(w, n), Cohort(w, n, 0, Idle);
    QueuedLists(cfg, w, n);
    CohortAt(w, n, 0, Idle, 0);
    forall i | 0 <= i < |q.reqs| ensures AllIn(q).reqs[i] == v.reqs[i] {
      CohortAt(w, n, 0, Idle, i);
    }
    assert AllIn(q).reqs == v.reqs;
  }

  lemma {:induction false} QueuedLists(cfg: Config, w: Stage, n: nat)
    requires cfg.activeLimit >= n + 1
    ensures AllAdmissible(cfg, Queued(w, n))
    ensures var v, u := AllIn(Queued(w, n)), Cohort(w, n, 0, Idle); v == u.(reqs := v.reqs)
  {
    var q := Queued(w, n);
    assert [] + ([0] + Numbered(w.Next(), n)) == [0] + Numbered(w.Next(), n);
    forall k | 0 <= k < |q.waiting| && q.Get(q.waiting[k]).returned ensures k == 0 {
      CohortAt(w, n, 0, Idle, q.waiting[k]);
    }
  }

  lemma {:induction false} CohortIn(cfg: Config, w: Stage, n: nat, g: nat)
    requires cfg.activeLimit >= n + 1
    ensures AllAdmissible(cfg, Cohort(w, n, g, Idle)) && AllIn(Cohort(w, n, g, Idle)) == Cohort(w, n, g, Idle)
  {
    var v := Cohort(w, n, g, Idle);
    assert AllIn(v).reqs == v.reqs && v.active + [] == v.active;
  }

  // -- how they are planned -----------------------------------------------------------------------------

  /** A policy a caller may pass: prefill before decode. */
  function PrefillFirst(c: Candidate): seq<int> {
    if c.decode then [1] else [0]
  }

  /** A policy a caller may pass: prefill before decode, and last of all whoever has more than one token to feed. */
  function LongestLast(c: Candidate): seq<int> {
    if c.decode then [1] else if c.remaining > 1 then [2] else [0]
  }

  lemma {:induction false} BothPrefillsFirst()
    ensures PrefillsFirst(PrefillFirst) && PrefillsFirst(LongestLast)
  {
  }

  /** Residents in planning order: the returned request first or last. */
  function CohortOrder(w: Stage, n: nat, first: bool): seq<nat> {
    if first then [0] + Numbered(w.Next(), n) else Numbered(w.Next(), n) + [0]
  }

  /** Limits and policies that give each resident one token, the returned one first or last. */
  ghost predicate OneEach(cfg: Config, n: nat, first: bool) {
    && cfg.activeLimit >= n + 1 && cfg.activeLimit >= 2 && cfg.budget >= n + 1
    && (cfg.chunk == 1 || (!first && cfg.budget == n + 1))
    && (n == 0 || cfg.priority == if first then PrefillFirst else LongestLast)
    && cfg.victimPriority == LargestSequence
  }

  function CohortCandidate(w: Stage, g: nat, i: nat): Candidate
    requires g <= 1
  {
    if i == 0 then Candidate(0, false, w.told + 1 - g, 1, w.told, 0) else Candidate(i, g == 1, 1, 1, g, 0)
  }

  lemma {:induction false} CohortRuns(w: Stage, n: nat, g: nat, i: nat)
    requires g <= 1 && w.told >= 2 && (i == 0 || w.Next() <= i < w.Next() + n)
    ensures var v := Cohort(w, n, g, Idle);
      && v.Runs(i) && v.Get(i).fed == g
      && (i != 0 ==> |v.Get(i).Known()| == g + 1)
      && CandidateAt(v, i) == CohortCandidate(w, g, i)
      && OneToken(v, i) == CohortItem(g, i)
  {
    hide Cohort;
    var v := Cohort(w, n, g, Idle);
    CohortAt(w, n, g, Idle, i);
    if i == 0 {
      assert v.Get(0).Known() == [1] + CountUp(w.told);
    } else {
      assert v.reqs[i].Known() == if g == 0 then [10] else [10, 11];
    }
  }

  /** What is fed to resident `i` next. */
  function CohortItem(g: nat, i: nat): BatchItem {
    BatchItem(i, [if i == 0 then g + 1 else g + 10], g, i != 0, g >= 1)
  }

  function CohortItems(g: nat, ids: seq<nat>): seq<BatchItem> {
    seq(|ids|, k requires 0 <= k < |ids| => CohortItem(g, ids[k]))
  }

  lemma {:induction false} InOrder(w: Stage, n: nat, first: bool, k: nat)
    requires k <= n
    ensures |CohortOrder(w, n, first)| == n + 1 && |[0] + Numbered(w.Next(), n)| == n + 1
    ensures var i := CohortOrder(w, n, first)[k];
      i == (if first then if k == 0 then 0 else w.Next() + k - 1 else if k == n then 0 else w.Next() + k)
    ensures ([0] + Numbered(w.Next(), n))[k] == if k == 0 then 0 else w.Next() + k - 1
  {
  }

  lemma {:induction false} CohortAllRun(w: Stage, n: nat, g: nat, first: bool)
    requires g <= 1 && w.told >= 2
    ensures var v := Cohort(w, n, g, Idle);
      && AllRun(v, v.active) && AllRun(v, CohortOrder(w, n, first)) && |CohortOrder(w, n, first)| == n + 1
      && OneTokens(v, CohortOrder(w, n, first)) == CohortItems(g, CohortOrder(w, n, first))
  {
    var v, ids := Cohort(w, n, g, Idle), CohortOrder(w, n, first);
    InOrder(w, n, first, 0);
    forall k | 0 <= k <= n
      ensures v.Runs(v.active[k]) && v.Runs(ids[k]) && OneToken(v, ids[k]) == CohortItem(g, ids[k]) {
      InOrder(w, n, first, k);
      CohortRuns(w, n, g, v.active[k]);
      CohortRuns(w, n, g, ids[k]);
    }
  }

  /** The list of candidates is kept, or its head goes to the end. */
  lemma {:induction false} SortedLast(rank: Candidate -> seq<int>, a: Candidate, cs: seq<Candidate>)
    requires Ordered(rank, cs) && forall k :: 0 <= k < |cs| ==> TupleLess(rank(cs[k]), rank(a))
    ensures Sorted(rank, [a] + cs) == cs + [a]
  {
    hide TupleLess, Insert;
    if cs == [] {
      SortedAlready(rank, [a]);
      assert [a] + cs == [a] && cs + [a] == [a];
    } else {
      var n := |cs| - 1;
      var init := cs[..n];
      assert cs == init + [cs[n]] && ([a] + cs)[..n + 1] == [a] + init && ([a] + cs)[n + 1] == cs[n];
      SortedLast(rank, a, init);
      InsertBeforeLast(rank, cs[n], init, a);
    }
  }

  lemma {:induction false} InsertBeforeLast(rank: Candidate -> seq<int>, c: Candidate, cs: seq<Candidate>, a: Candidate)
    requires Ordered(rank, cs + [c]) && TupleLess(rank(c), rank(a))
    ensures Insert(rank, c, cs + [a]) == cs + [c] + [a]
  {
    hide TupleLess;
    assert (cs + [a])[..|cs|] == cs && (cs + [a])[|cs|] == a;
    InsertLast(rank, c, cs);
  }

  lemma {:induction false} InsertLast(rank: Candidate -> seq<int>, c: Candidate, cs: seq<Candidate>)
    requires Ordered(rank, cs + [c])
    ensures Insert(rank, c, cs) == cs + [c]
  {
    if cs != [] {
      assert (cs + [c])[|cs|] == c && (cs + [c])[|cs| - 1] == cs[|cs| - 1];
    }
  }

  /** The candidates of the residents, in the order of residence. */
  ghost predicate CohortCandidates(w: Stage, n: nat, g: nat, cs: seq<Candidate>) {
    g <= 1 && |cs| == n + 1 && forall k :: 0 <= k <= n ==>
      cs[k] == CohortCandidate(w, g, if k == 0 then 0 else w.Next() + k - 1)
  }

  lemma {:induction false} PrefillsOrdered(w: Stage, n: nat, g: nat, cs: seq<Candidate>)
    requires CohortCandidates(w, n, g, cs)
    ensures Ordered(PrefillFirst, cs)
  {
    assert [0][1..] == [] && [1][1..] == [];
  }

  lemma {:induction false} LongestOrdered(w: Stage, n: nat, g: nat, cs: seq<Candidate>)
    requires CohortCandidates(w, n, g, cs) && w.told >= 2
    ensures Ordered(LongestLast, cs[1..])
    ensures forall k :: 0 <= k < n ==> TupleLess(LongestLast(cs[1..][k]), LongestLast(cs[0]))
  {
    assert [0][1..] == [] && [1][1..] == [] && [2][1..] == [];
  }

  lemma {:induction false} CohortCandidatesAre(w: Stage, n: nat, g: nat, first: bool)
    requires g <= 1 && w.told >= 2
    ensures var v := Cohort(w, n, g, Idle);
      && AllRun(v, v.active) && AllRun(v, CohortOrder(w, n, first))
      && var cs := CandidatesAt(v, v.active);
         && CohortCandidates(w, n, g, cs)
         && CandidatesAt(v, CohortOrder(w, n, first)) == if first then cs else cs[1..] + [cs[0]]
  {
    hide Cohort, CandidatesAt, CohortCandidate, CohortOrder, AllRun;
    var v, ids := Cohort(w, n, g, Idle), CohortOrder(w, n, first);
    CohortAllRun(w, n, g, first);
    CohortSize(w, n, g, Idle);
    var cs := CandidatesAt(v, v.active);
    forall k | 0 <= k <= n
      ensures cs[k] == CohortCandidate(w, g, if k == 0 then 0 else w.Next() + k - 1)
      ensures CandidatesAt(v, ids)[k] == CohortCandidate(w, g, ids[k]) {
      CohortCandidateAt(w, n, g, first, k);
    }
    forall k | 0 <= k <= n ensures CandidatesAt(v, ids)[k] == (if first then cs else cs[1..] + [cs[0]])[k] {
      InOrder(w, n, first, k);
    }
  }

  lemma {:induction false} CohortCandidateAt(w: Stage, n: nat, g: nat, first: bool, k: nat)
    requires g <= 1 && w.told >= 2 && k <= n
    ensures var v, ids := Cohort(w, n, g, Idle), CohortOrder(w, n, first);
      && AllRun(v, v.active) && AllRun(v, ids) && |v.active| == |ids| == n + 1
      && CandidatesAt(v, v.active)[k] == CohortCandidate(w, g, if k == 0 then 0 else w.Next() + k - 1)
      && CandidatesAt(v, ids)[k] == CohortCandidate(w, g, ids[k])
  {
    CohortAllRun(w, n, g, first);
    hide AllRun, Scene.Runs, CandidateAt;
    var v := Cohort(w, n, g, Idle);
    InOrder(w, n, first, k);
    CohortRuns(w, n, g, v.active[k]);
    CohortRuns(w, n, g, CohortOrder(w, n, first)[k]);
  }

  lemma {:induction false} CohortSorted(cfg: Config, w: Stage, n: nat, g: nat, first: bool)
    requires OneEach(cfg, n, first) && g <= 1 && w.told >= 2
    ensures var v := Cohort(w, n, g, Idle);
      && AllRun(v, v.active) && AllRun(v, CohortOrder(w, n, first))
      && Sorted(cfg.priority, CandidatesAt(v, v.active)) == CandidatesAt(v, CohortOrder(w, n, first))
  {
    hide Cohort, CandidatesAt, CohortCandidates, CohortOrder, AllRun, Sorted, Ordered, TupleLess;
    CohortCandidatesAre(w, n, g, first);
    var v := Cohort(w, n, g, Idle);
    var cs := CandidatesAt(v, v.active);
    CohortLength(w, n, g, cs);
    assert cs == [cs[0]] + cs[1..];
    if n == 0 {
      assert cs[1..] + [cs[0]] == cs;
      OneOrdered(cfg.priority, cs);
      SortedAlready(cfg.priority, cs);
    } else if first {
      PrefillsOrdered(w, n, g, cs);
      SortedAlready(cfg.priority, cs);
    } else {
      LongestOrdered(w, n, g, cs);
      SortedLast(cfg.priority, cs[0], cs[1..]);
    }
  }

  lemma {:induction false} CohortLength(w: Stage, n: nat, g: nat, cs: seq<Candidate>)
    requires CohortCandidates(w, n, g, cs)
    ensures |cs| == n + 1
  {
  }

  lemma {:induction false} OneOrdered(rank: Candidate -> seq<int>, cs: seq<Candidate>)
    requires |cs| <= 1
    ensures Ordered(rank, cs)
  {
  }

  lemma {:induction false} CohortPlan(cfg: Config, w: Stage, n: nat, g: nat, first: bool)
    requires OneEach(cfg, n, first) && g <= 1 && w.told >= 2
    ensures var v := Cohort(w, n, g, Idle);
      && TakesOneEach(cfg, v, CohortOrder(w, n, first), [])
      && OneTokens(v, CohortOrder(w, n, first)) == CohortItems(g, CohortOrder(w, n, first))
  {
    hide Sorted;
    var v, ids := Cohort(w, n, g, Idle), CohortOrder(w, n, first);
    CohortSorted(cfg, w, n, g, first);
    CohortAllRun(w, n, g, first);
    assert ids + [] == ids;
    forall k | 0 <= k < |ids| ensures SliceOfOne(cfg, v, ids[k], cfg.budget - k) {
      InOrder(w, n, first, k);
      CohortRuns(w, n, g, ids[k]);
    }
  }

  // -- what it takes of the pool ---------------------------------------------------------------------------

  /** A block each. */
  lemma {:induction false} CohortDemand(w: Stage, n: nat, g: nat, first: bool, phase: Phase)
    requires g <= 1 && w.told >= 2
    ensures Demand(Cohort(w, n, g, phase), CohortItems(g, CohortOrder(w, n, first))) == n + 1
  {
    hide Cohort, CohortOrder, Scene.Get, Extra, CohortItem, CohortItems, BlocksFor;
    var v, items := Cohort(w, n, g, phase), CohortItems(g, CohortOrder(w, n, first));
    CohortSize(w, n, g, phase);
    CohortExtra(w, n, g, first, phase, 0);
    SmallBlocks();
    forall k | 0 <= k <= n ensures v.Get(v.active[k]).fed == g && Extra(v, items[k]) == 1 - g {
      CohortExtra(w, n, g, first, phase, k);
    }
    HeldSum(v, v.active);
    SumOfSame(HeldBlocks(v, v.active), g);
    SumOfSame(Extras(v, items), 1 - g);
  }

  lemma {:induction false} CohortSize(w: Stage, n: nat, g: nat, phase: Phase)
    ensures Cohort(w, n, g, phase).size == BLOCK && |Cohort(w, n, g, phase).active| == n + 1
    ensures Cohort(w, n, g, phase).phase == phase && Cohort(w, n, g, phase).total == w.total
    ensures Cohort(w, n, g, Idle).(phase := phase) == Cohort(w, n, g, phase)
  {
  }

  lemma {:induction false} CohortExtra(w: Stage, n: nat, g: nat, first: bool, phase: Phase, k: nat)
    requires g <= 1 && w.told >= 2 && k <= n
    ensures var v, items := Cohort(w, n, g, phase), CohortItems(g, CohortOrder(w, n, first));
      |v.active| == |items| == n + 1 && v.Get(v.active[k]).fed == g && Extra(v, items[k]) == 1 - g
  {
    InOrder(w, n, first, k);
    SmallBlocks();
    var v := Cohort(w, n, g, phase);
    CohortAt(w, n, g, phase, v.active[k]);
    CohortAt(w, n, g, phase, CohortOrder(w, n, first)[k]);
  }

  // -- the first forward of the cohort ------------------------------------------------------------------------

  lemma {:induction false} CohortMovesOne(w: Stage, n: nat, first: bool, phase: Phase, k: nat)
    requires w.told >= 2 && w.max >= 2 && k <= n
    ensures var v, u, item := Cohort(w, n, 0, phase), Cohort(w, n, 1, Idle), CohortItem(0, CohortOrder(w, n, first)[k]);
      && item.id < |v.reqs| == |u.reqs| && !v.reqs[item.id].Terminal()
      && (item.sample ==> |v.reqs[item.id].generated| + 1 < w.max)
      && v.reqs[item.id].maxOut == w.max && u.reqs[item.id] == Moved(v.reqs[item.id], item, item.tokens[0] + 1)
  {
    InOrder(w, n, first, k);
    CohortAt(w, n, 0, phase, CohortOrder(w, n, first)[k]);
    CohortAt(w, n, 1, Idle, CohortOrder(w, n, first)[k]);
    hide Cohort;
    assert [] + [11] == [11];
  }

  lemma {:induction false} CohortMoves(w: Stage, n: nat, first: bool, phase: Phase)
    requires w.told >= 2 && w.max >= 2
    ensures var items := CohortItems(0, CohortOrder(w, n, first));
      AllMoved(Cohort(w, n, 0, phase), Cohort(w, n, 1, Idle), items, Successors(items))
  {
    hide CohortItem, Cohort, CohortOrder, Moved, Brief.Terminal;
    var v, u, ids := Cohort(w, n, 0, phase), Cohort(w, n, 1, Idle), CohortOrder(w, n, first);
    var items := CohortItems(0, ids);
    InOrder(w, n, first, 0);
    CohortMembers(w, n, first, phase);
    forall k | 0 <= k < |items|
      ensures items[k].id < |v.reqs| && !v.reqs[items[k].id].Terminal()
      ensures items[k].sample ==> |v.reqs[items[k].id].generated| + 1 < v.reqs[items[k].id].maxOut
      ensures u.reqs[items[k].id] == Moved(v.reqs[items[k].id], items[k], Successors(items)[k]) {
      CohortMovesOne(w, n, first, phase, k);
      ItemToken(0, ids[k]);
    }
  }

  /** Everybody but those gone is resident and in the plan. */
  lemma {:induction false} CohortMembers(w: Stage, n: nat, first: bool, phase: Phase)
    ensures var v, u, items := Cohort(w, n, 0, phase), Cohort(w, n, 1, Idle), CohortItems(0, CohortOrder(w, n, first));
      |v.reqs| == |u.reqs| && forall j :: 0 <= j < |v.reqs| && j !in ItemIds(items) ==> u.reqs[j] == v.reqs[j]
  {
    hide Cohort;
    var v, u, items := Cohort(w, n, 0, phase), Cohort(w, n, 1, Idle), CohortItems(0, CohortOrder(w, n, first));
    CohortAt(w, n, 0, phase, 0);
    CohortAt(w, n, 1, Idle, 0);
    InOrder(w, n, first, 0);
    forall j | 0 <= j < |v.reqs| && (j == 0 || j >= w.Next()) ensures j in ItemIds(items) {
      var k := if j == 0 then if first then 0 else n else if first then j - w.Next() + 1 else j - w.Next();
      InOrder(w, n, first, k);
      assert ItemIds(items)[k] == j;
    }
    forall j | 0 < j < w.Next() ensures u.reqs[j] == v.reqs[j] {
      CohortAt(w, n, 0, phase, j);
      CohortAt(w, n, 1, Idle, j);
    }
  }

  lemma {:induction false} ItemToken(g: nat, i: nat)
    ensures |CohortItem(g, i).tokens| == 1 && CohortItem(g, i).End() == g + 1
  {
  }

  lemma {:induction false} CohortFirstRuns(graph: bool, w: Stage, n: nat, first: bool)
    ensures var items := CohortItems(0, CohortOrder(w, n, first)); !Raises(graph, items) && RowsSafe(graph, items)
  {
    var items := CohortItems(0, CohortOrder(w, n, first));
    InOrder(w, n, first, 0);
    assert items[0] in items && !items[0].isDecode;
    NotGraphRun(graph, items);
  }

  lemma {:induction false} CohortWithin(cfg: Config, w: Stage, g: nat, n: nat, first: bool)
    requires cfg.maxModelLen >= g + 1
    ensures WithinContext(cfg, CohortItems(g, CohortOrder(w, n, first)))
  {
  }

  lemma {:induction false} CohortRound(layers: nat, cfg: Config, s: Sys, w: Stage, n: nat, first: bool)
    requires Shows(Successor(layers), cfg, s, Queued(w, n)) && n < w.total
    requires OneEach(cfg, n, first) && Roomy(cfg, 1, 2) && w.max >= 2 && w.told >= 2
    ensures var m := Successor(layers);
      Shows(m, cfg, Step(m, cfg, Step(m, cfg, Step(m, cfg, s, EIterate(0)), EExecute), EPost(0)), Cohort(w, n, 1, Idle))
  {
    hide Shows, Step, AllAdmissible, TakesOneEach, Demand, Raises, RowsSafe, Successor, OneTokens, AllIn, AllMoved,
      CohortItems, CohortOrder, WithinContext;
    var items := CohortItems(0, CohortOrder(w, n, first));
    QueuedIn(cfg, w, n);
    CohortPlan(cfg, w, n, 0, first);
    IterateShows(Successor(layers), cfg, s, Queued(w, n), CohortOrder(w, n, first), []);
    CohortFirstRuns(cfg.graph, w, n, first);
    CohortMoves(w, n, first, Planned(items));
    CohortDemand(w, n, 0, first, Planned(items));
    CohortWithin(cfg, w, 0, n, first);
    ForwardShows(layers, cfg, Step(Successor(layers), cfg, s, EIterate(0)), Cohort(w, n, 0, Planned(items)), items,
      Cohort(w, n, 1, Idle));
  }

  /** After a run that leads to `Returned`: newcomers, a round, and the next plan. */
  function CohortEvents(n: nat, max: nat): seq<Event> {
    Submits(n, max) + Round() + [EIterate(0)]
  }

  lemma {:induction false} CohortReached(layers: nat, cfg: Config, s0: Sys, before: seq<Event>, w: Stage, n: nat,
                                         first: bool)
    requires Shows(Successor(layers), cfg, Run(Successor(layers), cfg, s0, before), Returned(w))
    requires OneEach(cfg, n, first) && Roomy(cfg, n + 1, w.max + 1) && w.max >= 2 && w.told >= 2 && n < w.total
    ensures var m := Successor(layers);
      Shows(m, cfg, Run(m, cfg, s0, before + CohortEvents(n, w.max)),
        Cohort(w, n, 1, Planned(CohortItems(1, CohortOrder(w, n, first)))))
  {
    hide Shows, Step, Run, Round, Successor, Submits, AllAdmissible, TakesOneEach, AllIn, OneTokens, CohortItems,
      CohortOrder, Queued, Returned;
    var m := Successor(layers);
    NewcomersQueue(m, cfg, s0, before, w, n);
    var queued := before + Submits(n, w.max);
    CohortRound(layers, cfg, Run(m, cfg, s0, queued), w, n, first);
    RunRound(m, cfg, s0, queued);
    CohortIn(cfg, w, n, 1);
    CohortPlan(cfg, w, n, 1, first);
    IterateShows(m, cfg, Run(m, cfg, s0, queued + Round()), Cohort(w, n, 1, Idle), CohortOrder(w, n, first), []);
    RunOne(m, cfg, s0, queued + Round(), EIterate(0));
    assert before + CohortEvents(n, w.max) == queued + Round() + [EIterate(0)];
  }

  // -- a forward graph mode does not take ----------------------------------------------------------------------

  lemma {:induction false} CohortSampled(w: Stage, g: nat, n: nat, first: bool)
    ensures var items := CohortItems(g, CohortOrder(w, n, first));
      && OneTokenEach(items) && |items| == n + 1 && |SampledItems(items)| == n
      && (first ==> forall k :: 0 <= k < n ==> SampledItems(items)[k] == k + 1)
      && (g >= 1 ==> AllDecode(items))
  {
    var items := CohortItems(g, CohortOrder(w, n, first));
    InOrder(w, n, first, 0);
    forall k | 0 <= k <= n ensures items[k].sample <==> k != if first then 0 else n {
      InOrder(w, n, first, k);
    }
    if first {
      AllButFirst(items);
    } else {
      AllButLast(items);
    }
  }

  lemma {:induction false} AllButFirst(items: seq<BatchItem>)
    requires items != [] && !items[0].sample && forall k :: 0 < k < |items| ==> items[k].sample
    ensures |SampledItems(items)| == |items| - 1
    ensures forall k :: 0 <= k < |items| - 1 ==> SampledItems(items)[k] == k + 1
  {
    var init := items[..|items| - 1];
    if init == [] {
      assert SampledItems(init) == [];
    } else {
      AllButFirst(init);
    }
  }

  lemma {:induction false} CohortRaises(w: Stage, n: nat, first: bool)
    requires GraphBucket(n + 1) == n + 1 && n != 1
    ensures Raises(true, CohortItems(1, CohortOrder(w, n, first)))
  {
    var items := CohortItems(1, CohortOrder(w, n, first));
    CohortSampled(w, 1, n, first);
    OneTokenFlat(items);
  }

  lemma {:induction false} CohortRefused(layers: nat, cfg: Config, s: Sys, w: Stage, n: nat)
    requires Shows(Successor(layers), cfg, s, Cohort(w, n, 1, Planned(CohortItems(1, CohortOrder(w, n, false)))))
    requires w.told >= 2 && n < w.total
    requires cfg.graph && cfg.maxModelLen >= 2 && GraphBucket(n + 1) == n + 1 && n != 1
    ensures s.phase.Planned? && ExecuteStep(Successor(layers), cfg, s, s.phase.items).phase.outcome.Crashed?
  {
    hide Shows, Successor, CohortItems, CohortOrder, Raises, WithinContext, Demand, Execute, Cohort, GraphBucket;
    var items := CohortItems(1, CohortOrder(w, n, false));
    CohortRaises(w, n, false);
    CohortWithin(cfg, w, 1, n, false);
    CohortDemand(w, n, 1, false, Planned(items));
    CohortSize(w, n, 1, Planned(items));
    ShownParts(Successor(layers), cfg, s, Cohort(w, n, 1, Planned(items)));
    ForwardShown(Successor(layers), cfg, s, Cohort(w, n, 1, Planned(items)), items);
  }

  // -- rows handed to the wrong requests -------------------------------------------------------------------------

  lemma {:induction false} OneTokenRowsOf(size: Positive, tables: map<nat, seq<nat>>, hist: seq<seq<Token>>,
                                          items: seq<BatchItem>, k: nat)
    requires ItemsOk(size, tables, hist, items) && OneTokenEach(items) && k < |items|
    ensures var rows := RowsOf(size, tables, hist, items);
      && |rows| == |items| && rows[k].hist != [] && rows[k].hist[rows[k].Position()] == items[k].tokens[0]
  {
    hide FlatOf, Arange, SampledItems, TokenCount;
    var n := |items| - 1;
    assert ItemOk(size, tables, hist, items[n]);
    assert OneTokenEach(items[..n]);
    OneTokenFlat(items);
    OneTokenFlat(items[..n]);
    if k < n {
      OneTokenRowsOf(size, tables, hist, items[..n], k);
    } else {
      var known := hist[items[n].id];
      assert known[items[n].start..items[n].End()][0] == known[items[n].start];
    }
  }

  lemma {:induction false} SuccessorRow(layers: nat, rows: seq<Row>, hidden: seq<Vec>, k: nat)
    requires HiddenRight(Successor(layers), rows, hidden, layers) && k < |rows|
    ensures rows[k].hist != [] && Successor(layers).pick(hidden[k]) == rows[k].hist[rows[k].Position()] + 1
  {
    SuccessorHidden(layers, rows[k].hist, layers, rows[k].Position());
  }

  /** In the successor model the k-th row of a decode-only batch picks the successor of the k-th item's token. */
  lemma {:induction false} SuccessorRows(layers: nat, g: Cache, hist: seq<seq<Token>>, items: seq<BatchItem>,
                                         width: nat, k: nat)
    requires g.Valid() && Agrees(Successor(layers), g, hist) && ItemsOk(g.size, g.tables, hist, items)
    requires ItemsCached(g, items)
    requires OneTokenEach(items) && k < |items|
    ensures |g.pool| == layers
    ensures var hidden := FinalHidden(Successor(layers), g, TensorsOf(g.size, g.tables, items, width));
      k < |hidden| && Successor(layers).pick(hidden[k]) == items[k].tokens[0] + 1
  {
    hide Successor, Cache.Valid, ItemsCached, HiddenRight, Runnable;
    var m, b := Successor(layers), TensorsOf(g.size, g.tables, items, width);
    LayersOf(layers);
    var rows := RowsOf(g.size, g.tables, hist, items);
    PlanRunnable(m, g, hist, items, width);
    PackedEqualsRecompute(m, g.size, g.pool, b, rows, layers);
    OneTokenRowsOf(g.size, g.tables, hist, items, k);
    SuccessorRow(layers, rows, FinalHidden(m, g, b), k);
    HiddenLength(m, rows, FinalHidden(m, g, b), layers);
  }

  lemma {:induction false} HiddenLength(m: Model, rows: seq<Row>, hidden: seq<Vec>, l: nat)
    requires HiddenRight(m, rows, hidden, l)
    ensures |hidden| == |rows|
  {
  }

  /** In a padded run the k-th sampling request is given the successor of the k-th item's token. */
  lemma {:induction false} PaddedSaid(layers: nat, cfg: Config, s: Sys, v: Scene, items: seq<BatchItem>)
    requires Shows(Successor(layers), cfg, s, v) && v.phase == Planned(items) && cfg.graph
    requires Demand(v, items) <= v.total && WithinContext(cfg, items)
    requires PaddedRun(true, items) && OneTokenEach(items) && SampledItems(items) != []
    ensures var outcome := Execute(Successor(layers), true, cfg.maxModelLen, s.cache, items).0;
      outcome.Ran? && forall k :: 0 <= k < |SampledItems(items)| ==>
        && k <= SampledItems(items)[k] < |items| && items[SampledItems(items)[k]].id in outcome.outputs
        && outcome.outputs[items[SampledItems(items)[k]].id] == items[k].tokens[0] + 1
  {
    hide Successor, Shows, Demand, WithinContext, PaddedRun, Cache.Valid, Agrees, ItemsOk, ItemsCached, SampledItems,
      Execute, Finish, PlanFor, Grown, RowsGiven, FinalHidden, Packed, NoDup;
    var m := Successor(layers);
    PaddedForward(layers, cfg, s, v, items);
    var g := s.cache.EnsureCapacity(Required(items)).1;
    var b := Packed(true, cfg.maxModelLen, g, items);
    PaddedRunOutputs(m, g, items, b);
    RowsGivenShape(m, items, FinalHidden(m, g, b), Finish(m, true, g, items, b).0.outputs,
      Finish(m, false, g, items, b).0.outputs);
    forall k | 0 <= k < |items|
      ensures k < |FinalHidden(m, g, b)| && m.pick(FinalHidden(m, g, b)[k]) == items[k].tokens[0] + 1 {
      PackedIs(true, cfg.maxModelLen, g, items);
      SuccessorRows(layers, g, Hist(s), items, Width(g.size, true, cfg.maxModelLen, g.tables, items), k);
    }
  }

  lemma {:induction false} PackedIs(graph: bool, maxModelLen: nat, g: Cache, items: seq<BatchItem>)
    ensures Packed(graph, maxModelLen, g, items) ==
      TensorsOf(g.size, g.tables, items, Width(g.size, graph, maxModelLen, g.tables, items))
  {
  }

  lemma {:induction false} RowsGivenShape(m: Model, items: seq<BatchItem>, hidden: seq<Vec>, g: map<nat, Token>,
                                          p: map<nat, Token>)
    requires RowsGiven(m, items, hidden, g, p)
    ensures var s := SampledItems(items);
      |hidden| == |items| && forall k :: 0 <= k < |s| ==>
        k <= s[k] < |items| && items[s[k]].id in g && g[items[s[k]].id] == m.pick(hidden[k])
  {
  }

  /** What such a forward is given. */
  lemma {:induction false} PaddedForward(layers: nat, cfg: Config, s: Sys, v: Scene, items: seq<BatchItem>)
    requires Shows(Successor(layers), cfg, s, v) && v.phase == Planned(items) && cfg.graph
    requires Demand(v, items) <= v.total && WithinContext(cfg, items)
    requires PaddedRun(true, items) && OneTokenEach(items) && SampledItems(items) != []
    ensures var m, g := Successor(layers), s.cache.EnsureCapacity(Required(items)).1;
      var b := Packed(true, cfg.maxModelLen, g, items);
      && g.Valid() && Agrees(m, g, Hist(s)) && ItemsOk(g.size, g.tables, Hist(s), items) && ItemsCached(g, items)
      && PaddedPlan(m, g, items, b)
      && Execute(m, true, cfg.maxModelLen, s.cache, items) == Finish(m, true, g, items, b)
  {
    hide Successor, Demand, WithinContext, PaddedRun, Cache.Valid, Agrees, ItemsOk, SampledItems, Finish, Looks, Inv,
      Core, PlanFor, Grown, OneTokenEach, NoDup, Cache.EnsureCapacity, FitsWidth;
    var m := Successor(layers);
    ShownParts(m, cfg, s, v);
    CoreCache(m, cfg, s, items);
    FlightPlan(m, cfg, s, items);
    FullShown(m, cfg, s, v, items);
    GrowForPlan(m, s.cache, Hist(s), items);
    var g := s.cache.EnsureCapacity(Required(items)).1;
    ShownFits(m, cfg, s, items, g);
    CachedItems(s.cache, g, Hist(s), items);
    AgreesLayers(m, g, Hist(s));
    TensorsRows(g.size, g.tables, items, Width(g.size, true, cfg.maxModelLen, g.tables, items));
  }

  lemma {:induction false} CachedItems(c: Cache, g: Cache, hist: seq<seq<Token>>, items: seq<BatchItem>)
    requires PlanFor(c, hist, items) && Grown(c, g, items)
    ensures ItemsCached(g, items)
  {
    forall i | 0 <= i < |items| ensures items[i].id in g.lengths && items[i].start == g.lengths[items[i].id] {
      assert PlanItem(c, hist, items[i]);
    }
  }

  lemma {:induction false} AgreesLayers(m: Model, g: Cache, hist: seq<seq<Token>>)
    requires Agrees(m, g, hist)
    ensures |g.pool| == m.layers
  {
  }

  /**
   * The tokens given out: the first newcomer gets the successor of request 0's token, the second that of the
   * first's.
   */
  function MisroutedTokens(): seq<Token> {
    [0, 3, 12]
  }

  function MisroutedItems(w: Stage): seq<BatchItem> {
    [BatchItem(0, [2], 1, false, true), BatchItem(w.Next(), [11], 1, true, true),
     BatchItem(w.Next() + 1, [11], 1, true, true)]
  }

  function MisroutedScene(w: Stage): Scene {
    Scene(BLOCK, w.total, [Brief([1], w.max, CountUp(w.told), 2, Prefill, true, false)] + w.gone +
      [Brief([10], w.max, [11, 3], 2, Decoding, false, false), Brief([10], w.max, [11, 12], 2, Decoding, false, false)],
      [], [0, w.Next(), w.Next() + 1], Idle)
  }

  lemma {:induction false} MisroutedItemsAre(w: Stage)
    ensures CohortItems(1, CohortOrder(w, 2, true)) == MisroutedItems(w)
    ensures var items := MisroutedItems(w);
      && OneTokenEach(items) && SampledItems(items) == [1, 2] && PaddedRun(true, items) && !Raises(true, items)
  {
    assert Numbered(w.Next(), 2) == [w.Next(), w.Next() + 1];
    assert CohortOrder(w, 2, true) == [0, w.Next(), w.Next() + 1];
    assert CohortItems(1, CohortOrder(w, 2, true)) == MisroutedItems(w);
    CohortSampled(w, 1, 2, true);
    hide CohortItems, MisroutedItems;
    OneTokenFlat(MisroutedItems(w));
    SampledCount(MisroutedItems(w));
    BucketOfThree();
  }

  lemma {:induction false} BucketOfThree()
    ensures GraphBucket(3) == 4
  {
    assert BitLength(2) == 1 + BitLength(1) && BitLength(1) == 1 + BitLength(0);
    assert Pow2(2) == 2 * Pow2(1) && Pow2(1) == 2 * Pow2(0);
  }

  lemma {:induction false} MisroutedAt(w: Stage, phase: Phase)
    ensures var v, u := Cohort(w, 2, 1, phase), MisroutedScene(w);
      && u == v.(reqs := u.reqs, phase := Idle) && |v.reqs| == |u.reqs| == w.Next() + 2
      && u.reqs[0] == Brief([1], w.max, CountUp(w.told), 2, Prefill, true, false)
      && u.reqs[w.Next()] == Brief([10], w.max, [11, 3], 2, Decoding, false, false)
      && u.reqs[w.Next() + 1] == Brief([10], w.max, [11, 12], 2, Decoding, false, false)
      && forall j :: 0 < j < w.Next() ==> u.reqs[j] == w.gone[j - 1]
  {
    assert Numbered(w.Next(), 2) == [w.Next(), w.Next() + 1];
  }

  lemma {:induction false} MisroutedMoves(w: Stage, phase: Phase)
    requires w.max >= 3
    ensures var v, u := Cohort(w, 2, 1, phase), MisroutedScene(w);
      AllMoved(v, u, MisroutedItems(w), MisroutedTokens()) && u == v.(reqs := u.reqs, phase := Idle)
  {
    var v, u, items := Cohort(w, 2, 1, phase), MisroutedScene(w), MisroutedItems(w);
    MisroutedAt(w, phase);
    hide Cohort, MisroutedScene, CountUp;
    assert ItemIds(items) == [0, w.Next(), w.Next() + 1];
    assert [11] + [3] == [11, 3] && [11] + [12] == [11, 12];
    CohortAt(w, 2, 1, phase, 0);
    CohortAt(w, 2, 1, phase, w.Next());
    CohortAt(w, 2, 1, phase, w.Next() + 1);
    forall j | 0 <= j < |v.reqs| && j !in ItemIds(items) ensures u.reqs[j] == v.reqs[j] {
      assert ItemIds(items)[0] == 0 && ItemIds(items)[1] == w.Next() && ItemIds(items)[2] == w.Next() + 1;
      CohortAt(w, 2, 1, phase, j);
    }
  }

  lemma {:induction false} MisroutedSaid(layers: nat, cfg: Config, s: Sys, w: Stage)
    requires Shows(Successor(layers), cfg, s, Cohort(w, 2, 1, Planned(MisroutedItems(w)))) && w.told >= 2
    requires w.total >= 3
    requires cfg.graph && cfg.maxModelLen >= 2
    ensures var outcome := Execute(Successor(layers), cfg.graph, cfg.maxModelLen, s.cache, MisroutedItems(w)).0;
      outcome.Ran? && SaidBy(MisroutedItems(w), MisroutedTokens(), outcome.outputs)
  {
    hide Shows, Successor, Execute, Demand, WithinContext, Cohort, PaddedRun, Raises;
    var items := MisroutedItems(w);
    MisroutedItemsAre(w);
    CohortWithin(cfg, w, 1, 2, true);
    CohortDemand(w, 2, 1, true, Planned(items));
    CohortSize(w, 2, 1, Planned(items));
    PaddedSaid(layers, cfg, s, Cohort(w, 2, 1, Planned(items)), items);
    var o := Execute(Successor(layers), true, cfg.maxModelLen, s.cache, items).0.outputs;
    var sampled := SampledItems(items);
    assert sampled[0] == 1 && sampled[1] == 2;
  }

  lemma {:induction false} MisroutedForward(layers: nat, cfg: Config, s: Sys, w: Stage)
    requires Shows(Successor(layers), cfg, s, Cohort(w, 2, 1, Planned(MisroutedItems(w))))
    requires w.told >= 2 && w.total >= 3 && w.max >= 3
    requires cfg.graph && cfg.streamCapacity <= 0 && cfg.maxModelLen >= 2
    ensures var m := Successor(layers);
      Shows(m, cfg, Step(m, cfg, Step(m, cfg, s, EExecute), EPost(0)), MisroutedScene(w))
  {
    hide Shows, Step, Successor, CohortItems, CohortOrder, Raises, WithinContext, Demand, Execute, Cohort, AllMoved,
      SaidBy, MisroutedScene, MisroutedItems;
    var items := MisroutedItems(w);
    MisroutedItemsAre(w);
    MisroutedSaid(layers, cfg, s, w);
    CohortWithin(cfg, w, 1, 2, true);
    CohortDemand(w, 2, 1, true, Planned(items));
    CohortSize(w, 2, 1, Planned(items));
    MisroutedMoves(w, Planned(items));
    ForwardMoves(Successor(layers), cfg, s, Cohort(w, 2, 1, Planned(items)), items, MisroutedTokens(),
      MisroutedScene(w));
  }

  /** The events by which the first newcomer is given a token that is not its own. */
  function MisroutedEvents(max: nat): seq<Event> {
    Submits(2, max) + Round() + Round()
  }

  lemma {:induction false} MisroutedReached(layers: nat, cfg: Config, s0: Sys, before: seq<Event>, w: Stage)
    requires Shows(Successor(layers), cfg, Run(Successor(layers), cfg, s0, before), Returned(w))
    requires cfg.graph && OneEach(cfg, 2, true) && Roomy(cfg, 3, w.max + 1) && w.told >= 2 && w.total >= 3 && w.max >= 3
    ensures Shows(Successor(layers), cfg, Run(Successor(layers), cfg, s0, before + MisroutedEvents(w.max)),
      MisroutedScene(w))
  {
    hide Shows, Run, Step, Successor, CohortItems, CohortOrder, Cohort, MisroutedScene, MisroutedItems, Returned,
      Submits;
    CohortReached(layers, cfg, s0, before, w, 2, true);
    MisroutedItemsAre(w);
    var m, filled := Successor(layers), before + Submits(2, w.max) + Round();
    assert before + CohortEvents(2, w.max) == filled + [EIterate(0)];
    MisroutedForward(layers, cfg, Run(m, cfg, s0, filled + [EIterate(0)]), w);
    assert before + MisroutedEvents(w.max) == filled + Round();
    RunRound(m, cfg, s0, filled);
    RunOne(m, cfg, s0, filled, EIterate(0));
  }

  lemma {:induction false} SuccessorAnswer(layers: nat, max: nat)
    requires max > 2
    ensures [11, 12] <= Answer(Successor(layers), [10], None, max)
  {
    var m: Model, g: seq<Token> := Successor(layers), [11, 12];
    hide Successor;
    SuccessorNext(layers, [10]);
    SuccessorNext(layers, [10, 11]);
    assert [10] + [] == [10] && [10] + [11] == [10, 11];
    assert Greedy(m, [10], 0) == [];
    var one := Greedy(m, [10], 1);
    assert one == [11] && [10] + one == [10, 11];
    assert Greedy(m, [10], 2) == one + [Next(m, [10] + one)] == [11] + [12];
    AnswerSoFar(m, [10], None, max, g);
  }

  lemma {:induction false} OtherWords(answer: seq<Token>)
    requires [11, 12] <= answer
    ensures !([11, 3] <= answer)
  {
    assert answer[1] == 12;
  }

  lemma {:induction false} MisroutedLook(s: Sys, w: Stage)
    requires Looks(s, MisroutedScene(w))
    ensures var i := w.Next();
      && i < |s.reqs| && s.reqs[i].prompt == [10] && s.reqs[i].eos == None && s.reqs[i].maxOut == w.max
      && s.reqs[i].generated == [11, 3]
  {
    var v := MisroutedScene(w);
    assert v.reqs[w.Next()] == Brief([10], w.max, [11, 3], 2, Decoding, false, false);
    assert Quiet(s.reqs[w.Next()]) && BriefOf(s.reqs[w.Next()]) == v.reqs[w.Next()];
  }
}
