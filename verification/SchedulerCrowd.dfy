/** A run that fills the pool of a started engine until the oldest request has to give its blocks back. */
module SchedulerCrowd {
  import opened Lists
  import opened Allocator
  import opened Transformer
  import opened KvCache
  import opened Packing
  import opened Padding
  import opened Runner
  import opened Scheduling
  import opened SchedulerCore
  import opened SchedulerPlan
  import opened SchedulerRun
  import opened SchedulerScenes

  // -- event lists -------------------------------------------------------------------------------

  function Round(): seq<Event> {
    [EIterate(0), EExecute, EPost(0)]
  }

  function Rounds(n: nat): seq<Event> {
    if n == 0 then [] else Rounds(n - 1) + Round()
  }

  function Submits(n: nat, max: nat): seq<Event> {
    if n == 0 then [] else Submits(n - 1, max) + [ESubmit([10], max, None, 0)]
  }

  /** Cancellations of requests 1..n. */
  function Cancels(n: nat): seq<Event> {
    if n == 0 then [] else Cancels(n - 1) + [ECancel(n, 0)]
  }

  lemma {:induction false} RunOne(m: Model, cfg: Config, s: Sys, events: seq<Event>, e: Event)
    ensures Run(m, cfg, s, events + [e]) == Step(m, cfg, Run(m, cfg, s, events), e)
  {
    assert (events + [e])[..|events|] == events;
  }

  lemma {:induction false} RunRound(m: Model, cfg: Config, s: Sys, events: seq<Event>)
    ensures Run(m, cfg, s, events + Round()) ==
            Step(m, cfg, Step(m, cfg, Step(m, cfg, Run(m, cfg, s, events), EIterate(0)), EExecute), EPost(0))
  {
    assert events + Round() == events + [EIterate(0)] + [EExecute] + [EPost(0)];
    RunOne(m, cfg, s, events, EIterate(0));
    RunOne(m, cfg, s, events + [EIterate(0)], EExecute);
    RunOne(m, cfg, s, events + [EIterate(0)] + [EExecute], EPost(0));
  }

  lemma {:induction false} EmptyRun(m: Model, cfg: Config, s: Sys)
    ensures Run(m, cfg, s, []) == s
  {
  }

  // -- engines that start ------------------------------------------------------------------------

  /**
   * What the configuration check and start-up demand: the one block size, a context the ragged mode allows, at
   * least one block, and in graph mode a block for each row of every batch captured at start-up.
   */
  ghost predicate Startable(cfg: Config, s: Sys) {
    && s.cache.size == BLOCK && cfg.maxModelLen <= 4096 && s.cache.alloc.total >= 1
    && (cfg.graph ==> forall n :: n in WarmSizes(1, AtLeastZero(cfg.activeLimit)) ==> n <= s.cache.alloc.total)
  }

  function AtLeastZero(n: int): nat {
    if n >= 0 then n else 0
  }

  lemma {:induction false} WarmSizesWithin(size: Positive, limit: nat)
    ensures forall n :: n in WarmSizes(size, limit) ==> n <= limit
    decreases limit + 1 - size
  {
    if size <= limit {
      WarmSizesWithin(2 * size, limit);
    }
  }

  /** A started engine over `total` free blocks, without a prefix cache. */
  function Started(layers: nat, total: nat): Sys {
    Sys(Cache(BLOCK, 0, Blocks(total, seq(total, b => b), [], map[]), map[], map[], [], 0, 0, 0,
              seq(layers, l => seq(total * BLOCK, slot => KV([], [])))),
        [], [], [], Idle, NoWork())
  }

  lemma {:induction false} StartedShows(m: Model, cfg: Config, total: Positive)
    ensures Initial(m, Started(m.layers, total))
    ensures Shows(m, cfg, Started(m.layers, total), Scene(BLOCK, total, [], [], [], Idle))
    ensures cfg.maxModelLen <= 4096 && (cfg.graph ==> cfg.activeLimit <= total) ==>
      Startable(cfg, Started(m.layers, total))
  {
    var s := Started(m.layers, total);
    assert forall o :: s.cache.alloc.OwnedBy(o) == [];
    InitialInv(m, cfg, s);
    WarmSizesWithin(1, AtLeastZero(cfg.activeLimit));
  }

  lemma {:induction false} LayersOf(layers: nat)
    ensures Successor(layers).layers == layers
  {
  }

  // -- one request alone ---------------------------------------------------------------------------

  /** A pool of `total` blocks; request 0 is to be given `told` tokens, then `others` more requests come in. */
  datatype Crowd = Crowd(total: Positive, max: nat, told: nat, others: nat)

  /** What a request that starts with token 1 is given in `n` forwards. */
  function CountUp(n: nat): seq<Token> {
    seq(n, k => k + 2)
  }

  /** Request 0 after `n` forwards on its own. */
  function AloneScene(w: Crowd, n: nat): Scene {
    if n == 0 then Scene(BLOCK, w.total, [NewBrief([1], w.max)], [0], [], Idle)
    else Scene(BLOCK, w.total, [Brief([1], w.max, CountUp(n), n, Decoding, false, false)], [], [0], Idle)
  }

  /** The same, resident and planned. */
  function AloneIn(w: Crowd, n: nat, phase: Phase): Scene {
    Scene(BLOCK, w.total, [Brief([1], w.max, CountUp(n), n, if n == 0 then Prefill else Decoding, false, false)], [],
      [0], phase)
  }

  /** The next item of request 0 in that state. */
  function AloneItem(n: nat): BatchItem {
    BatchItem(0, [n + 1], n, true, n >= 1)
  }

  lemma {:induction false} AloneAdmitted(cfg: Config, w: Crowd, n: nat)
    requires cfg.activeLimit >= 1
    ensures AllAdmissible(cfg, AloneScene(w, n)) && AllIn(AloneScene(w, n)) == AloneIn(w, n, Idle)
  {
    assert CountUp(0) == [];
    assert AllIn(AloneScene(w, n)).reqs == AloneIn(w, n, Idle).reqs;
  }

  lemma {:induction false} AlonePlan(cfg: Config, w: Crowd, n: nat)
    ensures var v := AloneIn(w, n, Idle); TakesOneEach(cfg, v, [0], []) && OneTokens(v, [0]) == [AloneItem(n)]
  {
    hide AloneIn, Sorted, CandidateAt, OneToken, Ordered;
    var v := AloneIn(w, n, Idle);
    AloneRuns(w, n);
    assert [0] + [] == [0];
    SortedAlready(cfg.priority, CandidatesAt(v, [0]));
    assert SliceOfOne(cfg, v, 0, cfg.budget - 0);
  }

  lemma {:induction false} AloneRuns(w: Crowd, n: nat)
    ensures var v := AloneIn(w, n, Idle);
      v.active == [0] && v.Runs(0) && v.Get(0).fed + 1 == |v.Get(0).Known()| && OneToken(v, 0) == AloneItem(n)
  {
    var v := AloneIn(w, n, Idle);
    assert v.Get(0).Known() == [1] + CountUp(n) && v.Get(0).Known()[n] == n + 1;
  }

  lemma {:induction false} AloneDemand(w: Crowd, n: nat, phase: Phase)
    requires n < BLOCK * w.total
    ensures Demand(AloneIn(w, n, phase), [AloneItem(n)]) <= w.total
  {
    var v, items := AloneIn(w, n, phase), [AloneItem(n)];
    BlocksForMonotone(BLOCK, n, n + 1);
    BlocksForIsLeast(BLOCK, n + 1, w.total);
    assert [0][..0] == [] && Held(v, [0]) == BlocksFor(BLOCK, n);
    var extra := Extra(v, items[0]);
    assert Extras(v, items) == [extra] && [extra][..0] == [] && Sum([extra]) == extra;
  }

  lemma {:induction false} LoneSample(graph: bool, item: BatchItem)
    requires |item.tokens| == 1 && item.sample
    ensures !Raises(graph, [item]) && RowsSafe(graph, [item])
  {
    NearlyAllTaken(graph, [item]);
  }

  lemma {:induction false} AloneMoves(w: Crowd, n: nat, phase: Phase)
    requires n + 1 < w.max
    ensures AllMoved(AloneIn(w, n, phase), AloneScene(w, n + 1), [AloneItem(n)], Successors([AloneItem(n)]))
  {
    assert CountUp(n + 1) == CountUp(n) + [n + 2];
    assert ItemIds([AloneItem(n)]) == [0] && Successors([AloneItem(n)]) == [n + 2];
    assert AloneScene(w, n + 1).reqs[0] == Moved(AloneIn(w, n, phase).reqs[0], AloneItem(n), n + 2);
  }

  lemma {:induction false} AloneRound(layers: nat, cfg: Config, s: Sys, w: Crowd, n: nat)
    requires Shows(Successor(layers), cfg, s, AloneScene(w, n)) && n < BLOCK * w.total && n + 1 < w.max
    requires cfg.activeLimit >= 1 && Roomy(cfg, 1, w.max)
    ensures var m := Successor(layers);
      Shows(m, cfg, Step(m, cfg, Step(m, cfg, Step(m, cfg, s, EIterate(0)), EExecute), EPost(0)), AloneScene(w, n + 1))
  {
    hide Shows, Step, AllAdmissible, TakesOneEach, Demand, Raises, RowsSafe, Successor, OneTokens, AllIn, AllMoved;
    AloneAdmitted(cfg, w, n);
    AlonePlan(cfg, w, n);
    IterateShows(Successor(layers), cfg, s, AloneScene(w, n), [0], []);
    LoneSample(cfg.graph, AloneItem(n));
    var phase := Planned([AloneItem(n)]);
    AloneMoves(w, n, phase);
    AloneDemand(w, n, phase);
    ForwardShows(layers, cfg, Step(Successor(layers), cfg, s, EIterate(0)), AloneIn(w, n, phase), [AloneItem(n)],
      AloneScene(w, n + 1));
  }

  lemma {:induction false} AloneRounds(layers: nat, cfg: Config, s: Sys, events: seq<Event>, w: Crowd, n: nat)
    requires Shows(Successor(layers), cfg, Run(Successor(layers), cfg, s, events), AloneScene(w, 0))
    requires n <= BLOCK * w.total && n < w.max && cfg.activeLimit >= 1 && Roomy(cfg, 1, w.max)
    ensures Shows(Successor(layers), cfg, Run(Successor(layers), cfg, s, events + Rounds(n)), AloneScene(w, n))
  {
    hide Shows, Run, Successor, AloneScene, Step, Round;
    if n == 0 {
      assert events + Rounds(0) == events;
    } else {
      AloneRounds(layers, cfg, s, events, w, n - 1);
      assert events + Rounds(n) == events + Rounds(n - 1) + Round();
      RunRound(Successor(layers), cfg, s, events + Rounds(n - 1));
      AloneRound(layers, cfg, Run(Successor(layers), cfg, s, events + Rounds(n - 1)), w, n - 1);
    }
  }

  // -- the others -----------------------------------------------------------------------------------

  /** `from`, `from + 1`, ..., `n` of them. */
  function Numbered(from: nat, n: nat): seq<nat> {
    seq(n, k => from + k)
  }

  /** Request 0, told all it is told before the others come. */
  function Eldest(w: Crowd): Brief {
    Brief([1], w.max, CountUp(w.told), w.told, Decoding, false, false)
  }

  /** A newcomer that has been given `g` tokens, 0 or 1. */
  function Newcomer(max: nat, g: nat): Brief {
    Brief([10], max, if g == 0 then [] else [11], g, if g == 0 then Prefill else Decoding, false, false)
  }

  /** The others queued, `n` of them so far. */
  function Queueing(w: Crowd, n: nat): Scene {
    Scene(BLOCK, w.total, [Eldest(w)] + seq(n, k => NewBrief([10], w.max)), Numbered(1, n), [0], Idle)
  }

  /** Everybody resident, the first `j` of the others fed their one token. */
  function Filling(w: Crowd, j: nat, phase: Phase): Scene {
    Scene(BLOCK, w.total, [Eldest(w)] + seq(w.others, k => Newcomer(w.max, if k < j then 1 else 0)), [],
      Numbered(0, w.others + 1), phase)
  }

  /** What the next iteration finds. */
  function Before(w: Crowd, j: nat): Scene {
    if j == 0 then Queueing(w, w.others) else Filling(w, j, Idle)
  }

  lemma {:induction false} QueueingOneMore(w: Crowd, n: nat)
    ensures Submitted(Queueing(w, n), [10], w.max) == Queueing(w, n + 1)
  {
    assert Submitted(Queueing(w, n), [10], w.max).reqs == Queueing(w, n + 1).reqs;
    assert Submitted(Queueing(w, n), [10], w.max).waiting == Queueing(w, n + 1).waiting;
  }

  lemma {:induction false} QueueingNone(w: Crowd)
    requires w.told >= 1
    ensures Queueing(w, 0) == AloneScene(w, w.told)
  {
    assert Queueing(w, 0).reqs == AloneScene(w, w.told).reqs && Numbered(1, 0) == [];
  }

  lemma {:induction false} OthersQueue(m: Model, cfg: Config, s: Sys, events: seq<Event>, w: Crowd, n: nat)
    requires Shows(m, cfg, Run(m, cfg, s, events), AloneScene(w, w.told)) && w.told >= 1 && Roomy(cfg, n, w.max + 1)
    ensures Shows(m, cfg, Run(m, cfg, s, events + Submits(n, w.max)), Queueing(w, n))
  {
    hide Shows, Run, Step;
    if n == 0 {
      QueueingNone(w);
      assert events + Submits(0, w.max) == events;
    } else {
      OthersQueue(m, cfg, s, events, w, n - 1);
      var e, before := ESubmit([10], w.max, None, 0), events + Submits(n - 1, w.max);
      assert events + Submits(n, w.max) == before + [e];
      RunOne(m, cfg, s, before, e);
      SubmitShows(m, cfg, Run(m, cfg, s, before), Queueing(w, n - 1), [10], w.max);
      QueueingOneMore(w, n - 1);
    }
  }

  lemma {:induction false} QueueingAt(w: Crowd, i: nat)
    requires i <= w.others
    ensures var v := Queueing(w, w.others);
      && |v.reqs| == w.others + 1 && (i in v.waiting <==> i > 0)
      && (i > 0 ==> v.reqs[i].(state := Prefill, fed := 0) == Filling(w, 0, Idle).reqs[i])
      && v.reqs[0] == Filling(w, 0, Idle).reqs[0]
  {
    var v := Queueing(w, w.others);
    if i > 0 {
      assert v.waiting[i - 1] == i;
      assert v.reqs[i] == NewBrief([10], w.max) && Filling(w, 0, Idle).reqs[i] == Newcomer(w.max, 0);
    }
  }

  lemma {:induction false} FillingIn(cfg: Config, w: Crowd, j: nat)
    requires cfg.activeLimit >= w.others + 1
    ensures AllAdmissible(cfg, Before(w, j)) && AllIn(Before(w, j)) == Filling(w, j, Idle)
  {
    var v, u := Before(w, j), Filling(w, j, Idle);
    assert AllIn(v).active == u.active;
    forall i | 0 <= i < |u.reqs| ensures AllIn(v).reqs[i] == u.reqs[i] {
      if j == 0 {
        QueueingAt(w, i);
      }
    }
    assert AllIn(v).reqs == u.reqs;
  }

  // -- in which order they are fed ---------------------------------------------------------------------

  /** Policies that feed prefills of one token before decodes. */
  ghost predicate PrefillsFirst(rank: Candidate -> seq<int>) {
    forall c: Candidate :: (c.decode ==> rank(c) == [1]) && (!c.decode && c.remaining == 1 ==> rank(c) == [0])
  }

  lemma {:induction false} InsertBelow(rank: Candidate -> seq<int>, c: Candidate, zeros: seq<Candidate>,
                                       ones: seq<Candidate>)
    requires rank(c) == [0] && (forall k :: 0 <= k < |zeros| ==> rank(zeros[k]) == [0])
    requires forall k :: 0 <= k < |ones| ==> rank(ones[k]) == [1]
    ensures Insert(rank, c, zeros + ones) == zeros + [c] + ones
  {
    var all := zeros + ones;
    if ones == [] {
      assert all == zeros && zeros + [c] + ones == zeros + [c];
      assert !TupleLess([0], [0]) by {
        assert [0][1..] == [];
      }
    } else {
      var n := |ones| - 1;
      assert all[..|all| - 1] == zeros + ones[..n] && all[|all| - 1] == ones[n];
      InsertBelow(rank, c, zeros, ones[..n]);
      assert zeros + [c] + ones[..n] + [ones[n]] == zeros + [c] + ones;
    }
  }

  lemma {:induction false} SortedTwo(rank: Candidate -> seq<int>, ones: seq<Candidate>, zeros: seq<Candidate>)
    requires forall k :: 0 <= k < |ones| ==> rank(ones[k]) == [1]
    requires forall k :: 0 <= k < |zeros| ==> rank(zeros[k]) == [0]
    ensures Sorted(rank, ones + zeros) == zeros + ones
  {
    hide Insert;
    if zeros == [] {
      assert ones + zeros == ones && zeros + ones == ones;
      OnesOrdered(rank, ones);
      SortedAlready(rank, ones);
    } else {
      var n := |zeros| - 1;
      assert (ones + zeros)[..|ones| + n] == ones + zeros[..n] && (ones + zeros)[|ones| + n] == zeros[n];
      SortedTwo(rank, ones, zeros[..n]);
      InsertBelow(rank, zeros[n], zeros[..n], ones);
      assert zeros == zeros[..n] + [zeros[n]];
    }
  }

  lemma {:induction false} OnesOrdered(rank: Candidate -> seq<int>, ones: seq<Candidate>)
    requires forall k :: 0 <= k < |ones| ==> rank(ones[k]) == [1]
    ensures Ordered(rank, ones)
  {
    assert [1][1..] == [];
  }

  /** What is fed to resident `i` next. */
  function FillItem(w: Crowd, j: nat, i: nat): BatchItem {
    if i == 0 then BatchItem(0, [w.told + 1], w.told, true, w.told >= 1)
    else if i <= j then BatchItem(i, [11], 1, true, true)
    else BatchItem(i, [10], 0, true, false)
  }

  lemma {:induction false} FillingRuns(w: Crowd, j: nat, i: nat)
    requires i <= w.others && w.told >= 1
    ensures var v := Filling(w, j, Idle);
      && v.Runs(i) && v.Get(i).fed + 1 == |v.Get(i).Known()| && OneToken(v, i) == FillItem(w, j, i)
      && CandidateAt(v, i).decode == (i <= j) && CandidateAt(v, i).remaining == 1
  {
    var v := Filling(w, j, Idle);
    if i == 0 {
      assert v.Get(0).Known() == [1] + CountUp(w.told);
    } else {
      assert v.reqs[i] == Newcomer(w.max, if i <= j then 1 else 0);
      assert v.reqs[i].Known() == if i <= j then [10, 11] else [10];
    }
  }

  /** The unfed first, then request 0 and the others. */
  function FillOrder(w: Crowd, j: nat): seq<nat>
    requires j <= w.others
  {
    Numbered(j + 1, w.others - j) + Numbered(0, j + 1)
  }

  lemma {:induction false} FillingRunAll(w: Crowd, j: nat, ids: seq<nat>)
    requires w.told >= 1 && forall k :: 0 <= k < |ids| ==> ids[k] <= w.others
    ensures AllRun(Filling(w, j, Idle), ids)
    ensures OneTokens(Filling(w, j, Idle), ids) == seq(|ids|, k requires 0 <= k < |ids| => FillItem(w, j, ids[k]))
  {
    hide Filling;
    forall k | 0 <= k < |ids|
      ensures Filling(w, j, Idle).Runs(ids[k]) && OneToken(Filling(w, j, Idle), ids[k]) == FillItem(w, j, ids[k]) {
      FillingRuns(w, j, ids[k]);
    }
  }

  lemma {:induction false} FillingSorted(cfg: Config, w: Crowd, j: nat)
    requires PrefillsFirst(cfg.priority) && j <= w.others && w.told >= 1
    ensures var v := Filling(w, j, Idle);
      && AllRun(v, v.active) && AllRun(v, FillOrder(w, j))
      && Sorted(cfg.priority, CandidatesAt(v, v.active)) == CandidatesAt(v, FillOrder(w, j))
  {
    hide Sorted, Filling, CandidateAt;
    var v, ones, zeros := Filling(w, j, Idle), Numbered(0, j + 1), Numbered(j + 1, w.others - j);
    FillingActive(w, j, Idle);
    assert Numbered(0, w.others + 1) == ones + zeros;
    FillingRunAll(w, j, ones + zeros);
    FillingRunAll(w, j, zeros + ones);
    FillingRunAll(w, j, ones);
    FillingRunAll(w, j, zeros);
    var a, b := CandidatesAt(v, ones), CandidatesAt(v, zeros);
    forall k | 0 <= k < |a| ensures cfg.priority(a[k]) == [1] {
      FillingRuns(w, j, ones[k]);
    }
    forall k | 0 <= k < |b| ensures cfg.priority(b[k]) == [0] {
      FillingRuns(w, j, zeros[k]);
    }
    SortedTwo(cfg.priority, a, b);
    assert CandidatesAt(v, ones + zeros) == a + b && CandidatesAt(v, zeros + ones) == b + a;
  }

  lemma {:induction false} FillingActive(w: Crowd, j: nat, phase: Phase)
    ensures var v := Filling(w, j, phase);
      v.active == Numbered(0, w.others + 1) && |v.reqs| == w.others + 1 && v.phase == phase && v.total == w.total
  {
  }

  /** How many are fed. */
  function FedNow(cfg: Config, w: Crowd): nat {
    if cfg.budget <= w.others + 1 then cfg.budget else w.others + 1
  }

  lemma {:induction false} FillingPlan(cfg: Config, w: Crowd, j: nat)
    requires PrefillsFirst(cfg.priority) && j <= w.others && w.told >= 1
    ensures |FillOrder(w, j)| == w.others + 1
    ensures var v, n, order := Filling(w, j, Idle), FedNow(cfg, w), FillOrder(w, j);
      TakesOneEach(cfg, v, order[..n], order[n..])
  {
    hide Sorted, Filling;
    FillingSorted(cfg, w, j);
    var v, n, order := Filling(w, j, Idle), FedNow(cfg, w), FillOrder(w, j);
    assert order[..n] + order[n..] == order;
    FillingRunAll(w, j, order[..n]);
    forall k | 0 <= k < n ensures SliceOfOne(cfg, v, order[..n][k], cfg.budget - k) {
      FillingRuns(w, j, order[k]);
    }
  }

  // -- what they take of the pool ------------------------------------------------------------------------

  function HeldBlocks(v: Scene, ids: seq<nat>): seq<nat> {
    seq(|ids|, k requires 0 <= k < |ids| => BlocksFor(v.size, v.Get(ids[k]).fed))
  }

  lemma {:induction false} HeldSum(v: Scene, ids: seq<nat>)
    ensures Held(v, ids) == Sum(HeldBlocks(v, ids))
  {
    if ids != [] {
      var n := |ids| - 1;
      HeldSum(v, ids[..n]);
      assert HeldBlocks(v, ids)[..n] == HeldBlocks(v, ids[..n]);
    }
  }

  lemma {:induction false} SumOfSame(xs: seq<nat>, c: nat)
    requires forall k :: 0 <= k < |xs| ==> xs[k] == c
    ensures Sum(xs) == |xs| * c
  {
    if xs != [] {
      SumOfSame(xs[..|xs| - 1], c);
    }
  }

  lemma {:induction false} SumCovers(xs: seq<nat>, k: nat)
    requires k < |xs|
    ensures xs[k] <= Sum(xs)
  {
    if k < |xs| - 1 {
      SumCovers(xs[..|xs| - 1], k);
    }
  }

  lemma {:induction false} SmallBlocks()
    ensures BlocksFor(BLOCK, 0) == 0 && BlocksFor(BLOCK, 1) == 1 && BlocksFor(BLOCK, 2) == 1
  {
  }

  /** A block for each of the others that has been fed, and those of request 0. */
  lemma {:induction false} FillingHeld(w: Crowd, j: nat, phase: Phase)
    requires j <= w.others
    ensures var v := Filling(w, j, phase); Held(v, v.active) == BlocksFor(BLOCK, w.told) + j
  {
    var v := Filling(w, j, phase);
    var each := HeldBlocks(v, v.active);
    HeldSum(v, v.active);
    SmallBlocks();
    forall k | 0 <= k <= w.others
      ensures each[k] == if k == 0 then BlocksFor(BLOCK, w.told) else if k <= j then 1 else 0 {
      FillingFed(w, j, k, phase);
    }
    hide Filling, BlocksFor, Scene.Get;
    SumOfSteps(each, BlocksFor(BLOCK, w.told), j);
  }

  lemma {:induction false} SumOfSteps(xs: seq<nat>, a: nat, j: nat)
    requires j < |xs| && forall k :: 0 <= k < |xs| ==> xs[k] == if k == 0 then a else if k <= j then 1 else 0
    ensures Sum(xs) == a + j
  {
    var first, fed, unfed := xs[..1], xs[1..j + 1], xs[j + 1..];
    assert xs == first + (fed + unfed);
    SumAppend(first, fed + unfed);
    SumAppend(fed, unfed);
    assert first[..0] == [] && Sum(first) == a;
    SumOfSame(fed, 1);
    SumOfSame(unfed, 0);
  }

  lemma {:induction false} FillingFed(w: Crowd, j: nat, i: nat, phase: Phase)
    requires i <= w.others
    ensures var v := Filling(w, j, phase);
      && |v.active| == w.others + 1 && v.active[i] == i && v.size == BLOCK
      && v.Get(i).fed == if i == 0 then w.told else if i <= j then 1 else 0
  {
    var v := Filling(w, j, phase);
    if i > 0 {
      assert v.reqs[i] == Newcomer(w.max, if i - 1 < j then 1 else 0);
    }
  }

  lemma {:induction false} FillExtra(w: Crowd, j: nat, i: nat, phase: Phase)
    requires j <= w.others && i <= w.others
    ensures var extra := Extra(Filling(w, j, phase), FillItem(w, j, i));
      && (i > j ==> extra == 1) && (0 < i <= j ==> extra == 0)
      && (i == 0 && w.told % BLOCK == 0 ==> extra == 1)
  {
    var v := Filling(w, j, phase);
    SmallBlocks();
    if i > 0 {
      assert v.reqs[i] == Newcomer(w.max, if i <= j then 1 else 0);
    } else if w.told % BLOCK == 0 {
      NextBlock(w.told);
    }
  }

  lemma {:induction false} NextBlock(n: nat)
    requires n % BLOCK == 0
    ensures BlocksFor(BLOCK, n + 1) == BlocksFor(BLOCK, n) + 1
  {
  }

  // -- a round in which only unfed ones are fed --------------------------------------------------------------

  /** As many of the unfed as the budget takes. */
  function FillBatch(w: Crowd, j: nat, b: nat): seq<BatchItem> {
    seq(b, k requires 0 <= k => FillItem(w, j, j + 1 + k))
  }

  lemma {:induction false} FillBatchAt(w: Crowd, j: nat, b: nat, k: nat)
    requires k < b
    ensures |FillBatch(w, j, b)| == b && FillBatch(w, j, b)[k] == BatchItem(j + 1 + k, [10], 0, true, false)
  {
    assert FillBatch(w, j, b)[k] == FillItem(w, j, j + 1 + k);
  }

  lemma {:induction false} FillBatchPlanned(cfg: Config, w: Crowd, j: nat)
    requires PrefillsFirst(cfg.priority) && j + cfg.budget <= w.others && w.told >= 1
    ensures |FillOrder(w, j)| == w.others + 1
    ensures var v, n, order := Filling(w, j, Idle), cfg.budget, FillOrder(w, j);
      && TakesOneEach(cfg, v, order[..n], order[n..]) && AllRun(v, order[..n])
      && OneTokens(v, order[..n]) == FillBatch(w, j, n)
  {
    hide Filling, FillItem;
    FillingPlan(cfg, w, j);
    var order := FillOrder(w, j);
    assert order[..cfg.budget] == Numbered(j + 1, cfg.budget);
    FillingRunAll(w, j, order[..cfg.budget]);
  }

  lemma {:induction false} FillBatchDemand(w: Crowd, j: nat, b: nat, phase: Phase)
    requires j + b <= w.others && BlocksFor(BLOCK, w.told) + w.others <= w.total
    ensures Demand(Filling(w, j, phase), FillBatch(w, j, b)) <= w.total
  {
    FillingHeld(w, j, phase);
    var extras := Extras(Filling(w, j, phase), FillBatch(w, j, b));
    forall k | 0 <= k < |extras| ensures extras[k] == 1 {
      FillExtra(w, j, j + 1 + k, phase);
    }
    SumOfSame(extras, 1);
  }

  lemma {:induction false} FillBatchMoves(w: Crowd, j: nat, b: nat, phase: Phase)
    requires j + b <= w.others && w.max >= 2 && b >= 1
    ensures AllMoved(Filling(w, j, phase), Filling(w, j + b, Idle), FillBatch(w, j, b), Successors(FillBatch(w, j, b)))
  {
    hide Filling, FillBatch, Newcomer;
    var v, u, items := Filling(w, j, phase), Filling(w, j + b, Idle), FillBatch(w, j, b);
    FillingActive(w, j, phase);
    FillingActive(w, j + b, Idle);
    FillBatchAt(w, j, b, 0);
    forall i | j < i <= j + b ensures i in ItemIds(items) {
      FillBatchAt(w, j, b, i - j - 1);
      assert ItemIds(items)[i - j - 1] == i;
    }
    forall i | 0 <= i < |v.reqs| && !(j < i <= j + b) ensures u.reqs[i] == v.reqs[i] {
      FillingRecord(w, j, i, phase);
      FillingRecord(w, j + b, i, Idle);
    }
    forall k | 0 <= k < |items|
      ensures items[k].id < |v.reqs| && !v.reqs[items[k].id].Terminal()
      ensures items[k].sample ==> |v.reqs[items[k].id].generated| + 1 < v.reqs[items[k].id].maxOut
      ensures u.reqs[items[k].id] == Moved(v.reqs[items[k].id], items[k], Successors(items)[k]) {
      FillBatchAt(w, j, b, k);
      FillingRecord(w, j, j + 1 + k, phase);
      FillingRecord(w, j + b, j + 1 + k, Idle);
      NewcomerMoves(w.max, items[k]);
      assert Successors(items)[k] == 11;
    }
  }

  lemma {:induction false} FillingRecord(w: Crowd, j: nat, i: nat, phase: Phase)
    requires i <= w.others
    ensures Filling(w, j, phase).reqs[i] == if i == 0 then Eldest(w) else Newcomer(w.max, if i <= j then 1 else 0)
  {
    if i > 0 {
      assert Filling(w, j, phase).reqs[i] == Newcomer(w.max, if i - 1 < j then 1 else 0);
    }
  }

  lemma {:induction false} NewcomerMoves(max: nat, item: BatchItem)
    requires item.tokens == [10] && item.start == 0 && item.sample && max >= 2
    ensures var b := Newcomer(max, 0);
      !b.Terminal() && |b.generated| + 1 < b.maxOut && Moved(b, item, 11) == Newcomer(max, 1)
  {
    assert [] + [11] == [11];
  }

  lemma {:induction false} FillBatchRuns(cfg: Config, w: Crowd, j: nat, b: nat)
    requires b >= 1
    ensures var items := FillBatch(w, j, b); !Raises(cfg.graph, items) && RowsSafe(cfg.graph, items)
    ensures WithinContext(cfg, FillBatch(w, j, b))
  {
    var items := FillBatch(w, j, b);
    forall k | 0 <= k < b ensures items[k].End() == 1 && !items[k].isDecode {
      FillBatchAt(w, j, b, k);
    }
    assert items[0] in items;
    NotGraphRun(cfg.graph, items);
  }

  lemma {:induction false} FillRound(layers: nat, cfg: Config, s: Sys, w: Crowd, j: nat)
    requires Shows(Successor(layers), cfg, s, Before(w, j)) && PrefillsFirst(cfg.priority) && w.told >= 1 && w.max >= 2
    requires j + cfg.budget <= w.others && BlocksFor(BLOCK, w.told) + w.others <= w.total
    requires cfg.activeLimit >= w.others + 1 && Roomy(cfg, 0, 1)
    ensures var m := Successor(layers);
      Shows(m, cfg, Step(m, cfg, Step(m, cfg, Step(m, cfg, s, EIterate(0)), EExecute), EPost(0)),
        Before(w, j + cfg.budget))
  {
    hide Shows, Step, AllAdmissible, TakesOneEach, Demand, Raises, RowsSafe, Successor, OneTokens, AllIn, AllMoved,
      FillBatch, FillOrder, WithinContext, AllRun, Filling, Successors;
    var order, items := FillOrder(w, j), FillBatch(w, j, cfg.budget);
    FillingIn(cfg, w, j);
    FillBatchPlanned(cfg, w, j);
    FillingActive(w, j, Idle);
    BeforeIdle(w, j);
    IterateShows(Successor(layers), cfg, s, Before(w, j), order[..cfg.budget], order[cfg.budget..]);
    FillBatchRuns(cfg, w, j, cfg.budget);
    FillBatchMoves(w, j, cfg.budget, Planned(items));
    FillBatchDemand(w, j, cfg.budget, Planned(items));
    FillingSame(w, j, j + cfg.budget, Planned(items));
    ForwardShows(layers, cfg, Step(Successor(layers), cfg, s, EIterate(0)), Filling(w, j, Planned(items)), items,
      Filling(w, j + cfg.budget, Idle));
  }

  lemma {:induction false} BeforeIdle(w: Crowd, j: nat)
    ensures Before(w, j).phase.Idle? && (j > 0 ==> Before(w, j) == Filling(w, j, Idle))
  {
  }

  lemma {:induction false} FillingSame(w: Crowd, j: nat, k: nat, phase: Phase)
    ensures Filling(w, j, Idle).(phase := phase) == Filling(w, j, phase) && Filling(w, j, phase).phase == phase
    ensures Filling(w, j, phase).total == w.total
    ensures var v, u := Filling(w, j, phase), Filling(w, k, Idle); u == v.(reqs := u.reqs, phase := Idle)
  {
  }

  lemma {:induction false} FillRounds(layers: nat, cfg: Config, s: Sys, events: seq<Event>, w: Crowd, q: nat)
    requires Shows(Successor(layers), cfg, Run(Successor(layers), cfg, s, events), Before(w, 0))
    requires PrefillsFirst(cfg.priority) && w.told >= 1 && w.max >= 2
    requires q * cfg.budget <= w.others && BlocksFor(BLOCK, w.told) + w.others <= w.total
    requires cfg.activeLimit >= w.others + 1 && Roomy(cfg, 0, 1)
    ensures Shows(Successor(layers), cfg, Run(Successor(layers), cfg, s, events + Rounds(q)), Before(w, q * cfg.budget))
  {
    hide Shows, Run, Successor, Before, Step, Round;
    if q == 0 {
      assert events + Rounds(0) == events;
    } else {
      assert (q - 1) * cfg.budget + cfg.budget == q * cfg.budget;
      FillRounds(layers, cfg, s, events, w, q - 1);
      assert events + Rounds(q) == events + Rounds(q - 1) + Round();
      RunRound(Successor(layers), cfg, s, events + Rounds(q - 1));
      FillRound(layers, cfg, Run(Successor(layers), cfg, s, events + Rounds(q - 1)), w, (q - 1) * cfg.budget);
    }
  }

  // -- the round that asks for a block too many ------------------------------------------------------------------

  lemma {:induction false} ExtrasConcat(v: Scene, a: seq<BatchItem>, b: seq<BatchItem>)
    ensures Sum(Extras(v, a + b)) == Sum(Extras(v, a)) + Sum(Extras(v, b))
  {
    assert Extras(v, a + b) == Extras(v, a) + Extras(v, b);
    SumAppend(Extras(v, a), Extras(v, b));
  }

  /** The items of the last round. */
  function LastBatch(cfg: Config, w: Crowd, j: nat): seq<BatchItem>
    requires j <= w.others
  {
    var ids := FillOrder(w, j)[..FedNow(cfg, w)];
    seq(|ids|, k requires 0 <= k < |ids| => FillItem(w, j, ids[k]))
  }

  /** With budget for more than the unfed, request 0 is fed as well, and has come to the end of its blocks. */
  lemma {:induction false} LastBatchDemand(cfg: Config, w: Crowd, j: nat, phase: Phase)
    requires j <= w.others < j + cfg.budget && w.told % BLOCK == 0 && BlocksFor(BLOCK, w.told) + w.others == w.total
    ensures Demand(Filling(w, j, phase), LastBatch(cfg, w, j)) > w.total
  {
    hide Filling, FillItem, BlocksFor, FillOrder;
    LastBatchAt(cfg, w, j, 0);
    var v, items, r := Filling(w, j, phase), LastBatch(cfg, w, j), w.others - j;
    FillingHeld(w, j, phase);
    assert items == items[..r] + items[r..];
    ExtrasConcat(v, items[..r], items[r..]);
    forall k | 0 <= k < r ensures Extras(v, items[..r])[k] == 1 {
      LastBatchAt(cfg, w, j, k);
      FillExtra(w, j, j + 1 + k, phase);
    }
    SumOfSame(Extras(v, items[..r]), 1);
    LastBatchAt(cfg, w, j, r);
    FillExtra(w, j, 0, phase);
    assert Extras(v, items[r..])[0] == 1;
    SumCovers(Extras(v, items[r..]), 0);
  }

  lemma {:induction false} LastBatchAt(cfg: Config, w: Crowd, j: nat, k: nat)
    requires j <= w.others && k < FedNow(cfg, w) && k <= w.others - j
    ensures |LastBatch(cfg, w, j)| == FedNow(cfg, w)
    ensures LastBatch(cfg, w, j)[k] == FillItem(w, j, if k < w.others - j then j + 1 + k else 0)
  {
    assert FillOrder(w, j)[k] == if k < w.others - j then j + 1 + k else 0;
  }

  lemma {:induction false} LastBatchPlanned(cfg: Config, w: Crowd, j: nat)
    requires PrefillsFirst(cfg.priority) && j <= w.others && w.told >= 1
    ensures |FillOrder(w, j)| == w.others + 1
    ensures var v, n, order := Filling(w, j, Idle), FedNow(cfg, w), FillOrder(w, j);
      && TakesOneEach(cfg, v, order[..n], order[n..]) && AllRun(v, order[..n])
      && OneTokens(v, order[..n]) == LastBatch(cfg, w, j)
  {
    hide Filling, FillItem;
    FillingPlan(cfg, w, j);
    var n, order := FedNow(cfg, w), FillOrder(w, j);
    assert forall k :: 0 <= k < n ==> order[..n][k] <= w.others;
    FillingRunAll(w, j, order[..n]);
  }

  /** The forward of the last round fails for capacity. */
  lemma {:induction false} LastRound(m: Model, cfg: Config, s: Sys, w: Crowd, j: nat)
    requires Shows(m, cfg, s, Before(w, j)) && PrefillsFirst(cfg.priority) && cfg.queueTimeout >= 0
    requires j <= w.others < j + cfg.budget && w.told >= 1
    requires w.told % BLOCK == 0 && BlocksFor(BLOCK, w.told) + w.others == w.total && cfg.activeLimit >= w.others + 1
    ensures var items := LastBatch(cfg, w, j);
      Shows(m, cfg, Step(m, cfg, Step(m, cfg, s, EIterate(0)), EExecute), Filling(w, j, Landed(items, CapacityError)))
  {
    hide Shows, Step, AllAdmissible, TakesOneEach, Demand, OneTokens, AllIn, LastBatch, FillOrder, AllRun, Filling;
    var n, order, items := FedNow(cfg, w), FillOrder(w, j), LastBatch(cfg, w, j);
    FillingIn(cfg, w, j);
    LastBatchPlanned(cfg, w, j);
    BeforeIdle(w, j);
    IterateShows(m, cfg, s, Before(w, j), order[..n], order[n..]);
    LastBatchDemand(cfg, w, j, Planned(items));
    FillingSame(w, j, j, Planned(items));
    FillingSame(w, j, j, Landed(items, CapacityError));
    FullLands(m, cfg, Step(m, cfg, s, EIterate(0)), Filling(w, j, Planned(items)), items);
  }

  // -- and request 0 has to give way -----------------------------------------------------------------------------

  lemma {:induction false} EldestHighest(cfg: Config, w: Crowd, j: nat, phase: Phase)
    requires cfg.victimPriority == LargestSequence && w.told >= 1 && w.others >= 1
    ensures FirstHighest(cfg, Filling(w, j, phase))
  {
    var v := Filling(w, j, phase);
    FillingActive(w, j, phase);
    SmallBlocks();
    BlocksForMonotone(BLOCK, 1, w.told);
    forall k | 0 <= k < |v.active|
      ensures !v.Get(v.active[k]).Terminal() && !TupleLess(RankAt(cfg, v, v.active[0]), RankAt(cfg, v, v.active[k])) {
      FillingFed(w, j, k, phase);
      OtherBelow(cfg, v, k);
      assert k > 0 ==> v.reqs[k] == Newcomer(w.max, if k - 1 < j then 1 else 0);
    }
  }

  lemma {:induction false} OtherBelow(cfg: Config, v: Scene, i: nat)
    requires cfg.victimPriority == LargestSequence && v.size == BLOCK
    requires BlocksFor(BLOCK, v.Get(i).fed) <= BlocksFor(BLOCK, v.Get(0).fed) && v.Get(i).fed <= v.Get(0).fed
    ensures !TupleLess(RankAt(cfg, v, 0), RankAt(cfg, v, i))
  {
    var x, y := BlocksFor(BLOCK, v.Get(0).fed) * BLOCK, BlocksFor(BLOCK, v.Get(i).fed) * BLOCK;
    assert y <= x;
    NotBelow(x, v.Get(0).fed, y, v.Get(i).fed);
  }

  lemma {:induction false} NotBelow(x: nat, f: nat, y: nat, g: nat)
    requires y <= x && g <= f
    ensures !TupleLess([x, f, 0], [y, g, 0])
  {
    assert [x, f, 0][1..] == [f, 0] && [y, g, 0][1..] == [g, 0] && [f, 0][1..] == [0] == [g, 0][1..] && [0][1..] == [];
    assert !TupleLess([0], [0]);
    assert !TupleLess([f, 0], [g, 0]);
  }

  /** Request 0 queued again, the others resident but for the first `c`, which have been cancelled. */
  function Leaving(w: Crowd, j: nat, c: nat): Scene
    requires c <= w.others
  {
    Scene(BLOCK, w.total, [Eldest(w).(fed := 0, state := Waiting, returned := true)] +
      seq(w.others, k requires 0 <= k => Leaver(w, j, c, k)), [0], Numbered(c + 1, w.others - c), Idle)
  }

  function Leaver(w: Crowd, j: nat, c: nat, k: nat): Brief {
    var b := Newcomer(w.max, if k < j then 1 else 0);
    if k < c then b.(state := Cancelled) else b
  }

  lemma {:induction false} FirstLeaves(w: Crowd, j: nat, phase: Phase)
    ensures EvictedScene(Filling(w, j, phase), 0) == Leaving(w, j, 0)
  {
    var v := EvictedScene(Filling(w, j, phase), 0);
    var ids := Numbered(0, w.others + 1);
    assert ids[0] == 0 && ids[1..] == Numbered(1, w.others);
    assert v.active == Leaving(w, j, 0).active && v.waiting == [0];
    assert v.reqs == Leaving(w, j, 0).reqs;
  }

  lemma {:induction false} NextLeaves(w: Crowd, j: nat, c: nat)
    requires c < w.others
    ensures var v := Leaving(w, j, c);
      && c + 1 < |v.reqs| && !v.reqs[c + 1].Terminal() && CancelledScene(v, c + 1) == Leaving(w, j, c + 1)
  {
    var v := Leaving(w, j, c);
    assert v.reqs[c + 1] == Leaver(w, j, c, c);
    var ids := Numbered(c + 1, w.others - c);
    assert ids[0] == c + 1 && ids[1..] == Numbered(c + 2, w.others - c - 1);
    RemoveFirstAbsent([0], c + 1);
    var u := CancelledScene(v, c + 1);
    assert u.active == Leaving(w, j, c + 1).active;
    assert u.reqs == Leaving(w, j, c + 1).reqs;
  }

  lemma {:induction false} OthersLeave(m: Model, cfg: Config, s: Sys, events: seq<Event>, w: Crowd, j: nat, c: nat)
    requires Shows(m, cfg, Run(m, cfg, s, events), Leaving(w, j, 0)) && c <= w.others && cfg.streamCapacity <= 0
    ensures Shows(m, cfg, Run(m, cfg, s, events + Cancels(c)), Leaving(w, j, c))
  {
    hide Shows, Run, Step, CancelledScene;
    if c == 0 {
      assert events + Cancels(0) == events;
    } else {
      OthersLeave(m, cfg, s, events, w, j, c - 1);
      var before := events + Cancels(c - 1);
      assert events + Cancels(c) == before + [ECancel(c, 0)];
      RunOne(m, cfg, s, before, ECancel(c, 0));
      NextLeaves(w, j, c - 1);
      CancelShows(m, cfg, Run(m, cfg, s, before), Leaving(w, j, c - 1), c);
    }
  }

  lemma {:induction false} EldestLeaves(m: Model, cfg: Config, s: Sys, w: Crowd, j: nat, items: seq<BatchItem>)
    requires Shows(m, cfg, s, Filling(w, j, Landed(items, CapacityError)))
    requires cfg.victimPriority == LargestSequence && w.told >= 1 && w.others >= 1
    ensures Shows(m, cfg, Step(m, cfg, s, EPost(0)), Leaving(w, j, 0))
  {
    hide Shows, Step, EvictedScene, Filling, FirstHighest;
    var phase := Landed(items, CapacityError);
    FillingActive(w, j, phase);
    EldestHighest(cfg, w, j, phase);
    FirstLeaves(w, j, phase);
    FirstPreempted(m, cfg, s, Filling(w, j, phase), items);
    assert Numbered(0, w.others + 1)[0] == 0;
  }

  // -- all of it ----------------------------------------------------------------------------------------------------

  /** Request 0 waits to return; everybody else has been cancelled. */
  datatype Stage = Stage(total: Positive, max: nat, told: nat, gone: seq<Brief>) {
    /** The number of the next request. */
    function Next(): nat {
      1 + |gone|
    }
  }

  function StageOf(w: Crowd, j: nat): Stage {
    Stage(w.total, w.max, w.told, seq(w.others, k requires 0 <= k => Leaver(w, j, w.others, k)))
  }

  function Returned(g: Stage): Scene {
    Scene(BLOCK, g.total, [Brief([1], g.max, CountUp(g.told), 0, Waiting, true, false)] + g.gone, [0], [], Idle)
  }

  lemma {:induction false} ReturnedIs(w: Crowd, j: nat)
    ensures Leaving(w, j, w.others) == Returned(StageOf(w, j))
  {
    assert Numbered(w.others + 1, 0) == [];
    assert forall k :: 0 <= k < w.others ==> StageOf(w, j).gone[k] == Leaver(w, j, w.others, k);
    assert Leaving(w, j, w.others).reqs == Returned(StageOf(w, j)).reqs;
  }

  /** Up to the point at which all the others are queued. */
  function GatherEvents(w: Crowd): seq<Event> {
    [ESubmit([1], w.max, None, 0)] + Rounds(w.told) + Submits(w.others, w.max)
  }

  /** With `q` rounds in which only others are fed, and one more. */
  function ReturnEvents(w: Crowd, q: nat): seq<Event> {
    GatherEvents(w) + Rounds(q) + Round() + Cancels(w.others)
  }

  lemma {:induction false} Gathered(layers: nat, cfg: Config, w: Crowd)
    requires 1 <= w.told <= BLOCK * w.total && w.told < w.max && cfg.activeLimit >= 1
    requires Roomy(cfg, w.others + 1, w.max + 1)
    ensures Shows(Successor(layers), cfg, Run(Successor(layers), cfg, Started(layers, w.total), GatherEvents(w)),
      Before(w, 0))
  {
    hide Successor, Shows, Step, Run, Round, Started, AloneScene;
    var m, s := Successor(layers), Started(layers, w.total);
    LayersOf(layers);
    StartedShows(m, cfg, w.total);
    EmptyRun(m, cfg, s);
    var first := ESubmit([1], w.max, None, 0);
    SubmitShows(m, cfg, s, Scene(BLOCK, w.total, [], [], [], Idle), [1], w.max);
    RunOne(m, cfg, s, [], first);
    assert [] + [first] == [first];
    FirstSubmitted(w);
    AloneRounds(layers, cfg, s, [first], w, w.told);
    OthersQueue(m, cfg, s, [first] + Rounds(w.told), w, w.others);
  }

  lemma {:induction false} FirstSubmitted(w: Crowd)
    ensures Submitted(Scene(BLOCK, w.total, [], [], [], Idle), [1], w.max) == AloneScene(w, 0)
  {
  }

  /** What it takes: others that fill the pool, and limits and policies under which they do. */
  ghost predicate Crowding(cfg: Config, w: Crowd, q: nat) {
    && w.told >= 1 && w.told < w.max && w.told % BLOCK == 0 && w.others >= 1
    && BlocksFor(BLOCK, w.told) + w.others == w.total
    && q * cfg.budget <= w.others < q * cfg.budget + cfg.budget
    && PrefillsFirst(cfg.priority) && cfg.victimPriority == LargestSequence && cfg.activeLimit >= w.others + 1
    && Roomy(cfg, w.others + 1, w.max + 1)
  }

  /** Request 0 outgrows the pool beside the others, is preempted, and they leave. */
  lemma {:induction false} CrowdReturned(layers: nat, cfg: Config, w: Crowd, q: nat)
    requires Crowding(cfg, w, q)
    ensures Shows(Successor(layers), cfg, Run(Successor(layers), cfg, Started(layers, w.total), ReturnEvents(w, q)),
      Returned(StageOf(w, q * cfg.budget)))
  {
    hide Successor, Shows, Step, Run, Started, Before, GatherEvents, LastBatch, BlocksFor, PrefillsFirst;
    var m, s0, j := Successor(layers), Started(layers, w.total), q * cfg.budget;
    ToldFits(w);
    Gathered(layers, cfg, w);
    FillRounds(layers, cfg, s0, GatherEvents(w), w, q);
    var filled := GatherEvents(w) + Rounds(q);
    LastRound(m, cfg, Run(m, cfg, s0, filled), w, j);
    EldestLeaves(m, cfg, Step(m, cfg, Step(m, cfg, Run(m, cfg, s0, filled), EIterate(0)), EExecute), w, j,
      LastBatch(cfg, w, j));
    RunRound(m, cfg, s0, filled);
    OthersLeave(m, cfg, s0, filled + Round(), w, j, w.others);
    ReturnedIs(w, j);
  }

  lemma {:induction false} ToldFits(w: Crowd)
    requires BlocksFor(BLOCK, w.told) <= w.total
    ensures w.told <= BLOCK * w.total
  {
    BlocksForIsLeast(BLOCK, w.told, w.total);
  }

  // -- the same by request 0 alone, under any policy ------------------------------------------------------------------

  /** Request 0 holds every block and has come to their end; one more request is resident. */
  ghost predicate FullHouse(cfg: Config, w: Crowd) {
    && w.told == BLOCK * w.total && w.told < w.max && w.others == 1
    && cfg.victimPriority == LargestSequence && cfg.activeLimit >= 2 && Roomy(cfg, 2, w.max + 1)
  }

  lemma {:induction false} FullHouseBlocks(w: Crowd)
    requires w.told == BLOCK * w.total
    ensures BlocksFor(BLOCK, w.told) == w.total && w.told >= 1 && w.told % BLOCK == 0
  {
    BlocksForExact(BLOCK, w.total);
  }

  /** Whatever is planned of the two needs a block more. */
  lemma {:induction false} FullHouseDemand(m: Model, cfg: Config, s: Sys, w: Crowd, items: seq<BatchItem>)
    requires Shows(m, cfg, s, Filling(w, 0, Planned(items))) && FullHouse(cfg, w)
    ensures Demand(Filling(w, 0, Planned(items)), items) > w.total
  {
    hide Shows, Filling, BlocksFor, FullHouse;
    var v := Filling(w, 0, Planned(items));
    LastInHouse(m, cfg, s, w, items);
    FillingHeld(w, 0, Planned(items));
    SumCovers(Extras(v, items), |items| - 1);
  }

  /** Of either request a block more is needed. */
  lemma {:induction false} LastInHouse(m: Model, cfg: Config, s: Sys, w: Crowd, items: seq<BatchItem>)
    requires Shows(m, cfg, s, Filling(w, 0, Planned(items))) && FullHouse(cfg, w)
    ensures items != [] && Extra(Filling(w, 0, Planned(items)), items[|items| - 1]) >= 1
    ensures BlocksFor(BLOCK, w.told) == w.total
  {
    hide Shows, BlocksFor;
    var v := Filling(w, 0, Planned(items));
    FullHouseBlocks(w);
    FillingActive(w, 0, Planned(items));
    LastPlanned(m, cfg, s, v, items);
    var last := items[|items| - 1];
    FillingFed(w, 0, last.id, Planned(items));
    hide Filling;
    NextBlock(v.Get(last.id).fed);
    BlocksForMonotone(BLOCK, v.Get(last.id).fed + 1, last.End());
  }

  lemma {:induction false} LastPlanned(m: Model, cfg: Config, s: Sys, v: Scene, items: seq<BatchItem>)
    requires Shows(m, cfg, s, v) && v.phase == Planned(items)
    ensures items != [] && items[|items| - 1].End() > v.Get(items[|items| - 1].id).fed
    ensures items[|items| - 1].id in v.active
  {
    hide CacheOk, Places, AllFaithful, Residents;
    var last := items[|items| - 1];
    assert ItemInFlight(m, cfg, s, last, Unfed);
    assert last.id < |s.reqs| ==> BriefOf(s.reqs[last.id]) == v.reqs[last.id];
  }

  lemma {:induction false} SomethingPlanned(cfg: Config, s: Sys, i: nat)
    requires NoDup(s.active) && i in s.active && Eligible(s.Get(i)) && s.Get(i).fed < |s.Get(i).Known()|
    ensures BuildPlan(cfg, s) != []
  {
    hide BuildPlan;
    PlanGuarantees(cfg, s);
    assert BuildPlan(cfg, s) == [] ==> ItemIds(BuildPlan(cfg, s)) == [];
  }

  lemma {:induction false} FullHousePlans(m: Model, cfg: Config, t: Sys, w: Crowd)
    requires Core(m, cfg, t, [], Unfed) && Looks(t, Filling(w, 0, Idle)) && w.told >= 1
    ensures BuildPlan(cfg, t) != []
  {
    hide CacheOk, AllFaithful, Residents, BuildPlan;
    FillingRuns(w, 0, 0);
    assert BriefOf(t.reqs[0]) == Filling(w, 0, Idle).reqs[0] && Quiet(t.reqs[0]);
    assert t.active[0] == 0;
    SomethingPlanned(cfg, t, 0);
  }

  lemma {:induction false} FullHouseIterates(m: Model, cfg: Config, s: Sys, w: Crowd) returns (items: seq<BatchItem>)
    requires Shows(m, cfg, s, Before(w, 0)) && FullHouse(cfg, w)
    ensures Shows(m, cfg, Step(m, cfg, s, EIterate(0)), Filling(w, 0, Planned(items)))
  {
    hide AdmitWaiting, BuildPlan, Inv, Step, AllIn, Core, Looks, Filling, AllAdmissible, Before;
    FullHouseBlocks(w);
    FillingIn(cfg, w, 0);
    BeforeIdle(w, 0);
    IterateAdmits(m, cfg, s, Before(w, 0));
    StepInv(m, cfg, s, EIterate(0));
    var t := AdmitWaiting(cfg, s, 0);
    items := BuildPlan(cfg, t);
    FullHousePlans(m, cfg, t, w);
    PhaseLooks(t, Filling(w, 0, Idle), Planned(items));
    FillingSame(w, 0, 0, Planned(items));
  }

  /** Request 0 takes the whole pool, is preempted beside a second request, and that one leaves. */
  lemma {:induction false} FullHouseReturned(layers: nat, cfg: Config, w: Crowd)
    requires FullHouse(cfg, w)
    ensures Shows(Successor(layers), cfg, Run(Successor(layers), cfg, Started(layers, w.total), ReturnEvents(w, 0)),
      Returned(StageOf(w, 0)))
  {
    hide Successor, Shows, Step, Run, Started, Before, GatherEvents, Filling, Demand;
    var m, s0, before := Successor(layers), Started(layers, w.total), GatherEvents(w);
    FullHouseBlocks(w);
    Gathered(layers, cfg, w);
    var s := Run(m, cfg, s0, before);
    var items := FullHouseIterates(m, cfg, s, w);
    var t := Step(m, cfg, s, EIterate(0));
    FullHouseDemand(m, cfg, t, w, items);
    FillingSame(w, 0, 0, Planned(items));
    FillingSame(w, 0, 0, Landed(items, CapacityError));
    FullLands(m, cfg, t, Filling(w, 0, Planned(items)), items);
    EldestLeaves(m, cfg, Step(m, cfg, t, EExecute), w, 0, items);
    assert before + Rounds(0) == before;
    RunRound(m, cfg, s0, before);
    OthersLeave(m, cfg, s0, before + Round(), w, 0, w.others);
    ReturnedIs(w, 0);
  }
}
