/**
 * Steps as sequences of elementary moves. Each scheduler step unfolds into moves that touch one request at a
 * time, the core invariant holding before and after each; so a property kept by every move is kept by every
 * step, and holds in every run if it holds at the start.
 */
module SchedulerMoves {
  import opened Lists
  import opened Transformer
  import opened KvCache
  import opened Packing
  import opened KvCacheContent
  import opened Runner
  import opened Scheduling
  import opened SchedulerCore
  import opened SchedulerRun

  /** A state together with the items still to be post-processed. */
  datatype Point = Point(s: Sys, items: seq<BatchItem>, mode: Mode)

  datatype Move =
    | MSubmit(prompt: seq<Token>, maxOut: int, eos: Option<Token>, now: int)
    | MConsume(id: nat)
    | MDrain(id: nat, now: int)
    | MRecompute(id: nat, item: BatchItem)
    | MMark(id: nat)
    | MEnd(id: nat, state: RequestState, rejected: bool, now: int)
    | MFinal(now: int)
    | MSkip
    | MToken(token: Token, now: int)
    | MPrefill
    | MAdmit(now: int)
    | MEvict(victim: nat)
    | MPlan
    | MLand(outcome: Outcome, cache: Cache, ran: bool)
    | MIdle

  /** The items left once request `i` is out of the way. */
  function Rest(items: seq<BatchItem>, i: nat): seq<BatchItem> {
    if items != [] && items[0].id == i then items[1..] else items
  }

  function Ended(cfg: Config, s: Sys, i: nat, state: RequestState, rejected: bool, now: int): Sys {
    Finalize(cfg, s.Set(i, s.Get(i).(state := state, rejected := rejected)), i, now)
  }

  function Moved(cfg: Config, a: Point, v: Move): Point {
    var s, i := a.s, if a.items == [] then 0 else a.items[0].id;
    match v
    case MSubmit(prompt, maxOut, eos, now) => a.(s := Submit(cfg, s, prompt, maxOut, eos, now))
    case MConsume(j) => a.(s := Consume(s, j))
    case MDrain(j, now) => a.(s := s.Set(j, Drained(s.Get(j), cfg.streamCapacity, now)))
    case MRecompute(j, item) => a.(s := s.Set(j, Recomputed(s.Get(j), item)))
    case MMark(j) => a.(s := s.Set(j, s.Get(j).(state := Cancelled)))
    case MEnd(j, state, rejected, now) => a.(s := Ended(cfg, s, j, state, rejected, now), items := Rest(a.items, j))
    case MFinal(now) => a.(s := Finalize(cfg, s, i, now), items := Rest(a.items, i))
    case MSkip => a.(items := Rest(a.items, i))
    case MToken(token, now) => a.(s := AfterToken(cfg, s, i, token, now), items := Rest(a.items, i))
    case MPrefill => a.(s := s.Set(i, s.Get(i).(state := Prefill)), items := Rest(a.items, i))
    case MAdmit(now) =>
      if s.waiting == [] then a else a.(s := AdmitOne(cfg, s.(waiting := s.waiting[1..]), s.waiting[0], now))
    case MEvict(w) => a.(s := Evicted(s, w), items := [])
    case MPlan =>
      var items := BuildPlan(cfg, s);
      a.(s := s.(phase := if items == [] then Idle else Planned(items)), items := items)
    case MLand(outcome, cache, ran) => Point(Land(s, a.items, outcome, cache, ran), a.items, ModeOf(outcome))
    case MIdle => a.(s := s.(phase := Idle))
  }

  ghost predicate Ok(m: Model, cfg: Config, a: Point) {
    Core(m, cfg, a.s, a.items, a.mode)
  }

  /** What the code has checked, or knows, when it makes the move. */
  ghost predicate Guard(m: Model, cfg: Config, a: Point, v: Move) {
    var s, i := a.s, if a.items == [] then 0 else a.items[0].id;
    match v
    case MSubmit(_, _, _, _) => true
    case MConsume(j) => j < |s.reqs|
    case MDrain(j, _) => j in s.active
    case MRecompute(j, _) => j in s.active && !s.Get(j).Terminal()
    case MMark(j) => j in ItemIds(a.items) && j in s.active && !s.Get(j).Terminal()
    case MEnd(j, state, rejected, _) =>
      && (j in s.waiting || j in s.active) && !s.Get(j).Terminal() && j !in ItemIds(Rest(a.items, j))
      && (state.Cancelled? || state.TimedOut? || state.Failed?)
      && (!state.Failed? ==> rejected == s.Get(j).rejected)
    case MFinal(_) => a.items != [] && i in s.active && s.Get(i).Terminal()
    case MSkip => a.items != [] && i in s.active && s.Get(i).Terminal() && a.mode.Unfed?
    case MToken(token, _) =>
      && a.items != [] && i in s.active && !s.Get(i).Terminal() && a.items[0].sample
      && a.mode.Fed? && s.Get(i).Known() != [] && (GraphSafe(cfg) ==> token == Next(m, s.Get(i).Known()))
    case MPrefill => a.items != [] && i in s.active && !s.Get(i).Terminal() && a.mode.Fed? && !a.items[0].sample
    case MAdmit(_) => s.waiting != [] && |s.active| < cfg.activeLimit && !Blocked(s, s.waiting[0]) &&
      s.cache.CanReserve(s.waiting[0], 0)
    case MEvict(w) => w in s.active && !s.Get(w).Terminal() && CanPreempt(s)
    case MPlan => a.items == [] && a.mode.Unfed?
    case MLand(outcome, cache, ran) =>
      && a.items != [] && a.mode.Unfed? && s.phase == Planned(a.items)
      && (outcome.Ran? ==> ran) && (outcome.CapacityError? ==> !ran) && ForwardCache(s.cache, cache, a.items)
    case MIdle => true
  }

  /** What any forward leaves of the cache: its shape, and the tables of the requests it does not serve. */
  ghost predicate ForwardCache(c: Cache, d: Cache, items: seq<BatchItem>) {
    && d.size == c.size && d.limit == c.limit && d.alloc.total == c.alloc.total
    && forall r :: r in c.tables && r !in ItemIds(items) ==> r in d.tables && d.tables[r] == c.tables[r]
  }

  ghost predicate Enabled(m: Model, cfg: Config, a: Point, v: Move) {
    Ok(m, cfg, a) && Guard(m, cfg, a, v) && Ok(m, cfg, Moved(cfg, a, v))
  }

  /** `P` is kept by every enabled move, and does not look at the mode once no item is left. */
  ghost predicate Closed(m: Model, cfg: Config, P: Point -> bool) {
    && (forall a, v :: Enabled(m, cfg, a, v) && P(a) ==> P(Moved(cfg, a, v)))
    && (forall a: Point, mode: Mode :: a.items == [] && P(a) ==> P(a.(mode := mode)))
  }

  lemma {:induction false} Keep(m: Model, cfg: Config, P: Point -> bool, a: Point, v: Move)
    requires Closed(m, cfg, P) && P(a) && Ok(m, cfg, a) && Guard(m, cfg, a, v) && Ok(m, cfg, Moved(cfg, a, v))
    ensures P(Moved(cfg, a, v))
  {
  }

  function Settle(s: Sys): Point {
    Point(s, [], Unfed)
  }

  lemma {:induction false} NotFirst(items: seq<BatchItem>, i: nat)
    requires i !in ItemIds(items)
    ensures Rest(items, i) == items
  {
    if items != [] {
      assert ItemIds(items)[0] == items[0].id;
    }
  }

  /** Ending a request that is not in flight. */
  lemma {:induction false} KeepEnd(m: Model, cfg: Config, P: Point -> bool, a: Point, i: nat, state: RequestState,
                                   rejected: bool, now: int)
    requires Closed(m, cfg, P) && P(a) && Ok(m, cfg, a)
    requires (i in a.s.waiting || i in a.s.active) && !a.s.Get(i).Terminal() && i !in ItemIds(a.items)
    requires state.Cancelled? || state.TimedOut? || state.Failed?
    requires !state.Failed? ==> rejected == a.s.Get(i).rejected
    ensures Core(m, cfg, Ended(cfg, a.s, i, state, rejected, now), a.items, a.mode)
    ensures P(a.(s := Ended(cfg, a.s, i, state, rejected, now)))
  {
    NotFirst(a.items, i);
    EndCore(m, cfg, a.s, i, a.s.Get(i).(state := state, rejected := rejected), a.items, a.items, a.mode, now);
    Keep(m, cfg, P, a, MEnd(i, state, rejected, now));
  }

  /** Ending the request of the next item. */
  lemma {:induction false} KeepEndHead(m: Model, cfg: Config, P: Point -> bool, a: Point, rejected: bool, now: int)
    requires Closed(m, cfg, P) && P(a) && Ok(m, cfg, a) && a.items != [] && !a.s.Get(a.items[0].id).Terminal()
    ensures Core(m, cfg, Fail(cfg, a.s, a.items[0].id, rejected, now), a.items[1..], a.mode)
    ensures P(a.(s := Fail(cfg, a.s, a.items[0].id, rejected, now), items := a.items[1..]))
  {
    var i := a.items[0].id;
    assert ItemInFlight(m, cfg, a.s, a.items[0], a.mode);
    TailFlight(m, cfg, a.s, a.items, a.mode);
    EndCore(m, cfg, a.s, i, a.s.Get(i).(state := Failed, rejected := rejected), a.items, a.items[1..], a.mode, now);
    Keep(m, cfg, P, a, MEnd(i, Failed, rejected, now));
  }

  /** Finalizing the next item's request, cancelled while in flight. */
  lemma {:induction false} KeepFinal(m: Model, cfg: Config, P: Point -> bool, a: Point, now: int)
    requires Closed(m, cfg, P) && P(a) && Ok(m, cfg, a) && a.items != [] && a.s.Get(a.items[0].id).Terminal()
    ensures Core(m, cfg, Finalize(cfg, a.s, a.items[0].id, now), a.items[1..], a.mode)
    ensures P(a.(s := Finalize(cfg, a.s, a.items[0].id, now), items := a.items[1..]))
  {
    var i := a.items[0].id;
    assert ItemInFlight(m, cfg, a.s, a.items[0], a.mode);
    TailFlight(m, cfg, a.s, a.items, a.mode);
    SetSelf(a.s, i);
    EndCore(m, cfg, a.s, i, a.s.Get(i), a.items, a.items[1..], a.mode, now);
    Keep(m, cfg, P, a, MFinal(now));
  }

  // -- the folds of an iteration -------------------------------------------------------------

  lemma {:induction false} TimeOutIsEnd(cfg: Config, s: Sys, i: nat, now: int)
    requires NoDup(s.waiting)
    ensures TimeOut(cfg, s, i, now) == Ended(cfg, s, i, TimedOut, s.Get(i).rejected, now)
  {
    RemoveFirstFacts(s.waiting, i);
    RemoveFirstAbsent(RemoveFirst(s.waiting, i), i);
  }

  lemma {:induction false} EndedWaiting(cfg: Config, s: Sys, i: nat, state: RequestState, rejected: bool, now: int)
    requires NoDup(s.waiting)
    ensures forall j :: j in Ended(cfg, s, i, state, rejected, now).waiting <==> j in s.waiting && j != i
  {
    RemoveFirstFacts(s.waiting, i);
  }

  lemma {:induction false} ReapWaitingKeeps(m: Model, cfg: Config, P: Point -> bool, s: Sys, ids: seq<nat>, now: int)
    requires Closed(m, cfg, P) && P(Settle(s)) && Core(m, cfg, s, [], Unfed)
    requires NoDup(ids) && forall i :: i in ids ==> i in s.waiting
    ensures P(Settle(ReapWaiting(cfg, s, ids, now)))
    decreases |ids|
  {
    hide Ended, Finalize;
    if ids != [] {
      var i := ids[0];
      assert ids == [i] + ids[1..];
      if !s.Get(i).Terminal() && now - s.Get(i).arrival > cfg.queueTimeout {
        KeepEnd(m, cfg, P, Settle(s), i, TimedOut, s.Get(i).rejected, now);
        TimeOutIsEnd(cfg, s, i, now);
        EndedWaiting(cfg, s, i, TimedOut, s.Get(i).rejected, now);
        ReapWaitingKeeps(m, cfg, P, TimeOut(cfg, s, i, now), ids[1..], now);
      } else {
        ReapWaitingKeeps(m, cfg, P, s, ids[1..], now);
      }
    }
  }

  lemma {:induction false} KeepMark(m: Model, cfg: Config, P: Point -> bool, a: Point, i: nat)
    requires Closed(m, cfg, P) && P(a) && Ok(m, cfg, a) && i in ItemIds(a.items) && !a.s.Get(i).Terminal()
    ensures P(a.(s := a.s.Set(i, a.s.Get(i).(state := Cancelled))))
  {
    var k :| 0 <= k < |a.items| && a.items[k].id == i;
    assert ItemInFlight(m, cfg, a.s, a.items[k], a.mode);
    MarkCore(m, cfg, a.s, i, a.items, a.mode);
    Keep(m, cfg, P, a, MMark(i));
  }

  /** Cancelling is marking when the item is in flight and ending otherwise. */
  lemma {:induction false} CancelKeeps(m: Model, cfg: Config, P: Point -> bool, a: Point, i: nat, now: int)
    requires Closed(m, cfg, P) && P(a) && Ok(m, cfg, a) && i < |a.s.reqs| && a.s.InFlight() == ItemIds(a.items)
    ensures P(a.(s := Cancel(cfg, a.s, i, now)))
  {
    var r := a.s.Get(i);
    if !r.Terminal() {
      NotDone(cfg, a.s, i);
      if i in ItemIds(a.items) {
        KeepMark(m, cfg, P, a, i);
      } else {
        KeepEnd(m, cfg, P, a, i, Cancelled, r.rejected, now);
        assert r.(state := Cancelled, rejected := r.rejected) == r.(state := Cancelled);
      }
    }
  }

  lemma {:induction false} ReapActiveKeeps(m: Model, cfg: Config, P: Point -> bool, s: Sys, ids: seq<nat>, now: int)
    requires Closed(m, cfg, P) && P(Settle(s)) && Core(m, cfg, s, [], Unfed)
    requires s.phase.Idle? && forall i :: i in ids ==> i < |s.reqs|
    ensures P(Settle(ReapActive(cfg, s, ids, now)))
    decreases |ids|
  {
    if ids != [] {
      var i, r := ids[0], s.Get(ids[0]);
      assert forall j :: j in ids[1..] ==> j in ids;
      if r.stalled.Some? && now - r.stalled.value > cfg.stallTimeout {
        CancelCore(m, cfg, s, i, now, [], Unfed);
        CancelShape(cfg, s, i, now);
        CancelKeeps(m, cfg, P, Settle(s), i, now);
        ReapActiveKeeps(m, cfg, P, Cancel(cfg, s, i, now), ids[1..], now);
      } else {
        ReapActiveKeeps(m, cfg, P, s, ids[1..], now);
      }
    }
  }

  lemma {:induction false} DrainKeeps(m: Model, cfg: Config, P: Point -> bool, s: Sys, ids: seq<nat>, now: int)
    requires Closed(m, cfg, P) && P(Settle(s)) && Core(m, cfg, s, [], Unfed) && forall i :: i in ids ==> i in s.active
    ensures P(Settle(DrainStreams(cfg, s, ids, now)))
    decreases |ids|
  {
    if ids != [] {
      var i := ids[0];
      assert ids == [i] + ids[1..];
      DrainOneCore(m, cfg, s, i, now);
      if s.Get(i).pending != [] {
        Keep(m, cfg, P, Settle(s), MDrain(i, now));
      }
      DrainKeeps(m, cfg, P, DrainOne(cfg, s, i, now), ids[1..], now);
    }
  }

  lemma {:induction false} AdmitKeeps(m: Model, cfg: Config, P: Point -> bool, s: Sys, now: int)
    requires Closed(m, cfg, P) && P(Settle(s)) && Core(m, cfg, s, [], Unfed)
    ensures P(Settle(AdmitWaiting(cfg, s, now)))
    decreases |s.waiting|
  {
    hide Finalize, Cache.Restore, Cache.Reserve;
    if s.waiting == [] || |s.active| >= cfg.activeLimit || Blocked(s, s.waiting[0]) {
    } else {
      AdmitOneCore(m, cfg, s, now);
      RemoveFirstShrinks(s.waiting[1..], s.waiting[0]);
      Keep(m, cfg, P, Settle(s), MAdmit(now));
      AdmitKeeps(m, cfg, P, AdmitOne(cfg, s.(waiting := s.waiting[1..]), s.waiting[0], now), now);
    }
  }

  lemma {:induction false} PlanKeeps(m: Model, cfg: Config, P: Point -> bool, s: Sys)
    requires Closed(m, cfg, P) && P(Settle(s)) && Core(m, cfg, s, [], Unfed)
    ensures var items := BuildPlan(cfg, s);
      P(Point(s.(phase := if items == [] then Idle else Planned(items)), items, Unfed))
  {
    PlannedCore(m, cfg, s);
    var items := BuildPlan(cfg, s);
    PhaseCore(m, cfg, s, items, Unfed, if items == [] then Idle else Planned(items), s.metrics);
    Keep(m, cfg, P, Settle(s), MPlan);
  }

  lemma {:induction false} IterateKeeps(m: Model, cfg: Config, P: Point -> bool, s: Sys, now: int)
    requires Closed(m, cfg, P) && P(Settle(s)) && Core(m, cfg, s, [], Unfed) && s.phase.Idle?
    ensures P(PointOf(Iterate(cfg, s, now)))
  {
    ReapWaitingCore(m, cfg, s, s.waiting, now);
    ReapWaitingKeeps(m, cfg, P, s, s.waiting, now);
    var a := ReapWaiting(cfg, s, s.waiting, now);
    ReapActiveCore(m, cfg, a, a.active, now);
    ReapActiveKeeps(m, cfg, P, a, a.active, now);
    var b := ReapActive(cfg, a, a.active, now);
    DrainStreamsCore(m, cfg, b, b.active, now);
    DrainKeeps(m, cfg, P, b, b.active, now);
    var c := DrainStreams(cfg, b, b.active, now);
    AdmitWaitingCore(m, cfg, c, now);
    AdmitKeeps(m, cfg, P, c, now);
    PlanKeeps(m, cfg, P, AdmitWaiting(cfg, c, now));
  }

  // -- post-processing --------------------------------------------------------------------------

  lemma {:induction false} KeepToken(m: Model, cfg: Config, P: Point -> bool, a: Point, now: int)
    requires Closed(m, cfg, P) && P(a) && Ok(m, cfg, a) && a.mode.Fed? && a.items != []
    requires !a.s.Get(a.items[0].id).Terminal() && a.items[0].sample
    ensures a.items[0].id in a.mode.outputs
    ensures P(a.(s := AfterToken(cfg, a.s, a.items[0].id, a.mode.outputs[a.items[0].id], now), items := a.items[1..]))
  {
    var i := a.items[0].id;
    assert ItemInFlight(m, cfg, a.s, a.items[0], a.mode);
    PostSampled(m, cfg, a.s, a.items, a.mode.outputs, now);
    Keep(m, cfg, P, a, MToken(a.mode.outputs[i], now));
  }

  lemma {:induction false} KeepPrefill(m: Model, cfg: Config, P: Point -> bool, a: Point)
    requires Closed(m, cfg, P) && P(a) && Ok(m, cfg, a) && a.mode.Fed? && a.items != []
    requires !a.s.Get(a.items[0].id).Terminal() && !a.items[0].sample
    ensures P(a.(s := a.s.Set(a.items[0].id, a.s.Get(a.items[0].id).(state := Prefill)), items := a.items[1..]))
  {
    var i := a.items[0].id;
    assert ItemInFlight(m, cfg, a.s, a.items[0], a.mode);
    assert Faithful(m, cfg, a.s.reqs[i]);
    ContinueCore(m, cfg, a.s, a.s.Get(i).(state := Prefill), a.items, a.mode);
    Keep(m, cfg, P, a, MPrefill);
  }

  lemma {:induction false} KeepRecompute(m: Model, cfg: Config, P: Point -> bool, a: Point, i: nat, item: BatchItem)
    requires Closed(m, cfg, P) && P(a) && Ok(m, cfg, a) && i in a.s.active && !a.s.Get(i).Terminal()
    ensures P(a.(s := a.s.Set(i, Recomputed(a.s.Get(i), item))))
    ensures Ok(m, cfg, a.(s := a.s.Set(i, Recomputed(a.s.Get(i), item))))
  {
    RecomputedFacts(a.s.Get(i), item);
    SetSameCore(m, cfg, a.s, i, Recomputed(a.s.Get(i), item), a.items, a.mode);
    Keep(m, cfg, P, a, MRecompute(i, item));
  }

  lemma {:induction false} PostItemKeeps(m: Model, cfg: Config, P: Point -> bool, s: Sys, items: seq<BatchItem>,
                                         outputs: map<nat, Token>, now: int)
    requires Closed(m, cfg, P) && P(Point(s, items, Fed(outputs))) && items != []
    requires Core(m, cfg, s, items, Fed(outputs))
    ensures P(Point(PostItem(cfg, s, items[0], outputs, now), items[1..], Fed(outputs)))
  {
    hide Finalize, AfterToken, CacheOk, Places;
    var a, i := Point(s, items, Fed(outputs)), items[0].id;
    assert ItemInFlight(m, cfg, s, items[0], Fed(outputs));
    if s.Get(i).Terminal() {
      KeepFinal(m, cfg, P, a, now);
    } else {
      KeepRecompute(m, cfg, P, a, i, items[0]);
      var b := a.(s := s.Set(i, Recomputed(s.Get(i), items[0])));
      if items[0].sample {
        KeepToken(m, cfg, P, b, now);
      } else {
        KeepPrefill(m, cfg, P, b);
      }
    }
  }

  lemma {:induction false} PostRanKeeps(m: Model, cfg: Config, P: Point -> bool, s: Sys, items: seq<BatchItem>,
                                        outputs: map<nat, Token>, now: int)
    requires Closed(m, cfg, P) && P(Point(s, items, Fed(outputs))) && Core(m, cfg, s, items, Fed(outputs))
    ensures P(Point(PostRan(cfg, s, items, outputs, now), [], Fed(outputs)))
    decreases |items|
  {
    if items != [] {
      PostItemCore(m, cfg, s, items, outputs, now);
      PostItemKeeps(m, cfg, P, s, items, outputs, now);
      PostRanKeeps(m, cfg, P, PostItem(cfg, s, items[0], outputs, now), items[1..], outputs, now);
    }
  }

  lemma {:induction false} PostCrashedKeeps(m: Model, cfg: Config, P: Point -> bool, s: Sys, items: seq<BatchItem>,
                                            now: int)
    requires Closed(m, cfg, P) && P(Point(s, items, Broken)) && Core(m, cfg, s, items, Broken)
    ensures P(Point(PostCrashed(cfg, s, items, now), [], Broken))
    decreases |items|
  {
    if items != [] {
      var i, a := items[0].id, Point(s, items, Broken);
      if s.Get(i).Terminal() {
        KeepFinal(m, cfg, P, a, now);
        PostCrashedKeeps(m, cfg, P, Finalize(cfg, s, i, now), items[1..], now);
      } else {
        KeepEndHead(m, cfg, P, a, false, now);
        PostCrashedKeeps(m, cfg, P, Fail(cfg, s, i, false, now), items[1..], now);
      }
    }
  }

  lemma {:induction false} KeepSkip(m: Model, cfg: Config, P: Point -> bool, a: Point)
    requires Closed(m, cfg, P) && P(a) && Ok(m, cfg, a) && a.mode.Unfed? && a.items != []
    requires a.s.Get(a.items[0].id).Terminal()
    ensures Core(m, cfg, a.s, a.items[1..], Unfed) && P(a.(items := a.items[1..]))
  {
    hide CacheOk, Places, AllFaithful, Closed;
    assert ItemInFlight(m, cfg, a.s, a.items[0], a.mode);
    TailFlight(m, cfg, a.s, a.items, Unfed);
    Keep(m, cfg, P, a, MSkip);
  }

  lemma {:induction false} PostRejectedKeeps(m: Model, cfg: Config, P: Point -> bool, s: Sys, items: seq<BatchItem>,
                                             now: int)
    requires Closed(m, cfg, P) && P(Point(s, items, Unfed)) && Core(m, cfg, s, items, Unfed)
    ensures P(Point(PostRejected(cfg, s, items, now), [], Unfed))
    decreases |items|
  {
    if items != [] {
      var i, a := items[0].id, Point(s, items, Unfed);
      if s.Get(i).Terminal() {
        KeepSkip(m, cfg, P, a);
      } else {
        KeepEndHead(m, cfg, P, a, true, now);
      }
      PostRejectedKeeps(m, cfg, P, Fail(cfg, s, i, true, now), items[1..], now);
    }
  }

  lemma {:induction false} PostCapacityKeeps(m: Model, cfg: Config, P: Point -> bool, s: Sys, items: seq<BatchItem>,
                                             now: int)
    requires Closed(m, cfg, P) && P(Point(s, items, Unfed)) && Core(m, cfg, s, items, Unfed)
    ensures P(Point(PostCapacity(cfg, s, items, now), [], Unfed))
  {
    if CanPreempt(s) {
      LivingFacts(s, s.active);
      var w := Victim(cfg, s, Living(s, s.active));
      DropUnfed(m, cfg, s, items, Unfed);
      EvictedCore(m, cfg, s, w);
      Keep(m, cfg, P, Point(s, items, Unfed), MEvict(w));
    } else {
      PostRejectedKeeps(m, cfg, P, s, items, now);
    }
  }

  lemma {:induction false} PostKeeps(m: Model, cfg: Config, P: Point -> bool, s: Sys, now: int)
    requires Closed(m, cfg, P) && P(PointOf(s)) && Inv(m, cfg, s) && s.phase.Landed?
    ensures P(Point(Post(cfg, s, now), [], ModeOf(s.phase.outcome)))
  {
    var items, outcome, idle := s.phase.items, s.phase.outcome, s.(phase := Idle);
    PhaseCore(m, cfg, s, items, ModeOf(outcome), Idle, s.metrics);
    Keep(m, cfg, P, PointOf(s), MIdle);
    match outcome
    case Ran(outputs) => PostRanKeeps(m, cfg, P, idle, items, outputs, now);
    case CapacityError => PostCapacityKeeps(m, cfg, P, idle, items, now);
    case Crashed => PostCrashedKeeps(m, cfg, P, idle, items, now);
  }

  // -- whole steps, whole runs ------------------------------------------------------------------------

  /** The point a state stands for between steps. */
  function PointOf(s: Sys): Point {
    match s.phase
    case Idle => Settle(s)
    case Planned(items) => Point(s, items, Unfed)
    case Landed(items, outcome) => Point(s, items, ModeOf(outcome))
  }

  lemma {:induction false} PointOk(m: Model, cfg: Config, s: Sys)
    requires Inv(m, cfg, s)
    ensures Ok(m, cfg, PointOf(s)) && s.InFlight() == ItemIds(PointOf(s).items)
  {
  }

  lemma {:induction false} ConsumeKeeps(m: Model, cfg: Config, P: Point -> bool, a: Point, i: nat)
    requires Closed(m, cfg, P) && P(a) && Ok(m, cfg, a) && i < |a.s.reqs|
    ensures P(a.(s := Consume(a.s, i)))
  {
    ConsumeCore(m, cfg, a.s, i, a.items, a.mode);
    Keep(m, cfg, P, a, MConsume(i));
  }

  lemma {:induction false} SubmitKeeps(m: Model, cfg: Config, P: Point -> bool, a: Point, prompt: seq<Token>,
                                       maxOut: int, eos: Option<Token>, now: int)
    requires Closed(m, cfg, P) && P(a) && Ok(m, cfg, a)
    ensures P(a.(s := Submit(cfg, a.s, prompt, maxOut, eos, now)))
  {
    SubmitCore(m, cfg, a.s, prompt, maxOut, eos, now, a.items, a.mode);
    Keep(m, cfg, P, a, MSubmit(prompt, maxOut, eos, now));
  }

  lemma {:induction false} ClientKeeps(m: Model, cfg: Config, P: Point -> bool, s: Sys, e: Event)
    requires Closed(m, cfg, P) && P(PointOf(s)) && Inv(m, cfg, s) && FromClient(e)
    ensures P(PointOf(Step(m, cfg, s, e)))
  {
    var a := PointOf(s);
    PointOk(m, cfg, s);
    match e {
      case ESubmit(prompt, maxOut, eos, now) =>
        SubmitKeeps(m, cfg, P, a, prompt, maxOut, eos, now);
      case ECancel(i, now) =>
        if i < |s.reqs| {
          CancelShape(cfg, s, i, now);
          CancelKeeps(m, cfg, P, a, i, now);
        }
      case EConsume(i) =>
        if i < |s.reqs| {
          ConsumeKeeps(m, cfg, P, a, i);
        }
    }
  }

  lemma {:induction false} LandKeeps(m: Model, cfg: Config, P: Point -> bool, s: Sys, items: seq<BatchItem>,
                                       outcome: Outcome, cache: Cache, ran: bool)
    requires Closed(m, cfg, P) && P(Point(s, items, Unfed)) && Core(m, cfg, s, items, Unfed)
    requires items != [] && Inv(m, cfg, Land(s, items, outcome, cache, ran)) && s.phase == Planned(items)
    requires ForwardCache(s.cache, cache, items)
    requires (outcome.Ran? ==> ran) && (outcome.CapacityError? ==> !ran)
    ensures P(PointOf(Land(s, items, outcome, cache, ran)))
  {
    Keep(m, cfg, P, Point(s, items, Unfed), MLand(outcome, cache, ran));
  }

  lemma {:induction false} ExecuteKeeps(m: Model, cfg: Config, P: Point -> bool, s: Sys, items: seq<BatchItem>)
    requires Closed(m, cfg, P) && P(Point(s, items, Unfed)) && Core(m, cfg, s, items, Unfed)
    requires (GraphSafe(cfg) ==> RowsSafe(cfg.graph, items)) && items != [] && s.phase == Planned(items)
    ensures P(PointOf(ExecuteStep(m, cfg, s, items))) && P(PointOf(ExecuteFailsLate(m, cfg, s, items)))
  {
    hide Closed, Core, Inv, Execute, Land;
    ExecuteInv(m, cfg, s, items);
    var (outcome, cache) := Execute(m, cfg.graph, cfg.maxModelLen, s.cache, items);
    ExecuteCache(m, cfg, s, items);
    LandKeeps(m, cfg, P, s, items, outcome, cache, outcome.Ran?);
    LandKeeps(m, cfg, P, s, items, if outcome.Ran? then Crashed else outcome, cache, outcome.Ran?);
  }

  lemma {:induction false} ExecuteFailsKeeps(m: Model, cfg: Config, P: Point -> bool, s: Sys, items: seq<BatchItem>,
                                             pool: seq<Layer>)
    requires Closed(m, cfg, P) && P(Point(s, items, Unfed)) && Core(m, cfg, s, items, Unfed) && items != []
    requires s.phase == Planned(items)
    ensures P(PointOf(ExecuteFails(cfg, s, items, pool)))
  {
    hide Closed, Core, Inv, ExecuteFailing, Land;
    ExecuteFailsInv(m, cfg, s, items, pool);
    var (outcome, cache) := ExecuteFailing(cfg.graph, cfg.maxModelLen, s.cache, items, pool);
    ExecuteFailsCache(m, cfg, s, items, pool);
    LandKeeps(m, cfg, P, s, items, outcome, cache, false);
  }

  lemma {:induction false} ExecuteCache(m: Model, cfg: Config, s: Sys, items: seq<BatchItem>)
    requires Core(m, cfg, s, items, Unfed)
    ensures ForwardCache(s.cache, Execute(m, cfg.graph, cfg.maxModelLen, s.cache, items).1, items)
  {
    hide Execute, Cache.Valid, Agrees, PlanFor, Flight, Residents, Places, AllFaithful;
    FlightPlan(m, cfg, s, items);
    ExecuteFacts(m, cfg.graph, cfg.maxModelLen, s.cache, Hist(s), items);
  }

  lemma {:induction false} ExecuteFailsCache(m: Model, cfg: Config, s: Sys, items: seq<BatchItem>, pool: seq<Layer>)
    requires Core(m, cfg, s, items, Unfed)
    ensures ForwardCache(s.cache, ExecuteFailing(cfg.graph, cfg.maxModelLen, s.cache, items, pool).1, items)
    ensures !ExecuteFailing(cfg.graph, cfg.maxModelLen, s.cache, items, pool).0.Ran?
  {
    hide ExecuteFailing, Cache.Valid, Agrees, PlanFor, Flight, Residents, Places, AllFaithful;
    FlightPlan(m, cfg, s, items);
    ExecuteFailingFacts(m, cfg.graph, cfg.maxModelLen, s.cache, Hist(s), items, pool);
  }

  lemma {:induction false} PostStepKeeps(m: Model, cfg: Config, P: Point -> bool, s: Sys, now: int)
    requires Closed(m, cfg, P) && P(PointOf(s)) && Inv(m, cfg, s) && s.phase.Landed?
    ensures P(PointOf(Post(cfg, s, now)))
  {
    hide Inv, Post, Enabled;
    PostKeeps(m, cfg, P, s, now);
    PostPhase(cfg, s, now);
    var b := Point(Post(cfg, s, now), [], ModeOf(s.phase.outcome));
    assert PointOf(b.s) == b.(mode := Unfed);
  }

  lemma {:induction false} StepKeeps(m: Model, cfg: Config, P: Point -> bool, s: Sys, e: Event)
    requires Closed(m, cfg, P) && P(PointOf(s)) && Inv(m, cfg, s)
    ensures P(PointOf(Step(m, cfg, s, e)))
  {
    hide Closed, Inv, Core, Iterate, Post, ExecuteStep, ExecuteFails, ExecuteFailsLate, RowsSafe, GraphSafe;
    PhaseParts(m, cfg, s);
    if FromClient(e) {
      ClientKeeps(m, cfg, P, s, e);
    } else if e.EIterate? {
      if s.phase.Idle? {
        IterateKeeps(m, cfg, P, s, e.now);
      }
    } else if e.EPost? {
      if s.phase.Landed? {
        PostStepKeeps(m, cfg, P, s, e.now);
      }
    } else if s.phase.Planned? {
      if e.EExecuteFails? {
        ExecuteFailsKeeps(m, cfg, P, s, s.phase.items, e.pool);
      } else {
        ExecuteKeeps(m, cfg, P, s, s.phase.items);
      }
    }
  }

  /** A property of points that holds at the start and is kept by every move holds throughout every run. */
  lemma {:induction false} RunKeeps(m: Model, cfg: Config, P: Point -> bool, s: Sys, events: seq<Event>)
    requires Closed(m, cfg, P) && P(PointOf(s)) && Inv(m, cfg, s)
    ensures P(PointOf(Run(m, cfg, s, events))) && Inv(m, cfg, Run(m, cfg, s, events))
  {
    if events != [] {
      var init := events[..|events| - 1];
      RunKeeps(m, cfg, P, s, init);
      StepInv(m, cfg, Run(m, cfg, s, init), events[|events| - 1]);
      StepKeeps(m, cfg, P, Run(m, cfg, s, init), events[|events| - 1]);
    }
  }
}
