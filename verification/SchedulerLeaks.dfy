/** What outlives its time: residents that are terminal but never finalized, and events nobody will deliver. */
module SchedulerLeaks {
  import opened Lists
  import opened Transformer
  import opened KvCache
  import opened KvCacheContent
  import opened Packing
  import opened Runner
  import opened Scheduling
  import opened SchedulerCore
  import opened SchedulerPlan
  import opened SchedulerRun
  import opened SchedulerMoves
  import opened SchedulerStreams

  // -- what a move does to the cache -----------------------------------------------------------------

  /** The shape of the pool and the table of request `i`. */
  ghost predicate SameTable(c: Cache, d: Cache, i: nat) {
    && d.size == c.size && d.limit == c.limit && d.alloc.total == c.alloc.total
    && (i in c.tables ==> i in d.tables && d.tables[i] == c.tables[i])
  }

  lemma {:induction false} TornDown(m: Model, cfg: Config, a: Point, j: nat, i: nat)
    requires Ok(m, cfg, a) && j != i && j < |a.s.reqs|
    ensures SameTable(a.s.cache, Teardown(a.s.cache, j, a.s.reqs[j].prompt), i)
  {
    hide Cache.Valid, Agrees, Places, AllFaithful, Residents, Flight, Cache.Store, Cache.Release;
    assert a.s.cache.Valid() && Agrees(m, a.s.cache, Hist(a.s));
    assert StartsWith(Hist(a.s), j, a.s.reqs[j].prompt);
    TeardownFacts(m, a.s.cache, j, a.s.reqs[j].prompt, Hist(a.s));
  }

  lemma {:induction false} Admitted(m: Model, cfg: Config, a: Point, i: nat)
    requires Ok(m, cfg, a) && a.s.waiting != [] && a.s.waiting[0] != i
    ensures var j := a.s.waiting[0];
      && j < |a.s.reqs| && a.s.cache.CanReserve(j, 0)
      && SameTable(a.s.cache, a.s.cache.Reserve(j, 0).Restore(j, a.s.reqs[j].prompt).0, i)
  {
    hide Cache.Valid, Agrees, AllFaithful, Residents, Flight, Cache.Restore, Cache.Reserve;
    var j := a.s.waiting[0];
    assert j in a.s.waiting;
    QueuedPrompt(m, cfg, a, j);
    AdmitFacts(m, a.s.cache, j, a.s.reqs[j].prompt, Hist(a.s));
  }

  lemma {:induction false} QueuedPrompt(m: Model, cfg: Config, a: Point, j: nat)
    requires Ok(m, cfg, a) && j in a.s.waiting
    ensures j < |a.s.reqs| && a.s.reqs[j].prompt != [] && StartsWith(Hist(a.s), j, a.s.reqs[j].prompt)
    ensures a.s.cache.Valid() && Agrees(m, a.s.cache, Hist(a.s)) && j !in a.s.cache.tables
  {
    hide Cache.Valid, Agrees;
    assert Faithful(m, cfg, a.s.reqs[j]);
  }

  lemma {:induction false} TokenPrompt(r: Req, token: Token, capacity: int, now: int)
    ensures WithToken(r, token, capacity, now).prompt == r.prompt
  {
    var e := StreamEvent(if EosHit(r, token) then None else Some(token), false);
    DrainedFacts(r.(generated := r.generated + [token], pending := r.pending + [e]), capacity, now);
  }

  /** No move changes the shape of the pool, nor the table of a request it does not touch. */
  lemma {:induction false} CacheAfter(m: Model, cfg: Config, a: Point, v: Move, i: nat)
    requires Ok(m, cfg, a) && Guard(m, cfg, a, v) && i !in ItemIds(a.items)
    requires v.MEnd? || v.MEvict? || v.MAdmit? ==> TouchedId(a, v) != i
    ensures SameTable(a.s.cache, Moved(cfg, a, v).s.cache, i)
  {
    hide Ok, Teardown, Cache.Reserve, Cache.Restore, WithToken, FinalRecord, Land, BuildPlan;
    OkTidy(m, cfg, a);
    if v.MFinal? || v.MToken? {
      HeadNot(a.items, i);
      TornDown(m, cfg, a, a.items[0].id, i);
      if v.MToken? {
        TokenPrompt(a.s.Get(a.items[0].id), v.token, cfg.streamCapacity, v.now);
      }
    } else if v.MEnd? {
      TornDown(m, cfg, a, v.id, i);
    } else if v.MEvict? {
      TornDown(m, cfg, a, v.victim, i);
    } else if v.MAdmit? {
      Admitted(m, cfg, a, i);
    } else if v.MLand? {
      LandedCache(a, v.outcome, v.cache, v.ran);
    }
  }

  lemma {:induction false} LandedCache(a: Point, outcome: Outcome, cache: Cache, ran: bool)
    ensures Land(a.s, a.items, outcome, cache, ran).cache == cache
  {
  }

  lemma {:induction false} HeadNot(items: seq<BatchItem>, i: nat)
    requires i !in ItemIds(items) && items != []
    ensures items[0].id != i
  {
    assert ItemIds(items)[0] == items[0].id;
  }

  // -- the shape of the pool over runs ------------------------------------------------------------------

  ghost predicate Shape(a: Point, size: Positive, limit: nat, total: nat) {
    a.s.cache.size == size && a.s.cache.limit == limit && a.s.cache.alloc.total == total
  }

  lemma {:induction false} ShapeClosed(m: Model, cfg: Config, size: Positive, limit: nat, total: nat)
    ensures Closed(m, cfg, (a: Point) => Shape(a, size, limit, total))
  {
    hide Enabled, Moved;
    var P := (a: Point) => Shape(a, size, limit, total);
    forall a, v | Enabled(m, cfg, a, v) && P(a) ensures P(Moved(cfg, a, v)) {
      ShapeMove(m, cfg, a, v);
    }
  }

  lemma {:induction false} ShapeMove(m: Model, cfg: Config, a: Point, v: Move)
    requires Enabled(m, cfg, a, v)
    ensures SameTable(a.s.cache, Moved(cfg, a, v).s.cache, |a.s.reqs|)
  {
    hide Ok, Moved;
    OkTidy(m, cfg, a);
    assert |a.s.reqs| !in ItemIds(a.items) by {
      assert forall k :: 0 <= k < |a.items| ==> a.items[k].id in a.s.active;
    }
    TouchedKnown(m, cfg, a, v);
    CacheAfter(m, cfg, a, v, |a.s.reqs|);
  }

  lemma {:induction false} TouchedKnown(m: Model, cfg: Config, a: Point, v: Move)
    requires Tidy(a) && Guard(m, cfg, a, v)
    ensures v.MEnd? || v.MEvict? || v.MAdmit? ==> TouchedId(a, v) < |a.s.reqs|
  {
    if OneRecord(v) {
      TouchedExists(m, cfg, a, v);
    }
  }

  /** Block size, prefix budget and pool size are those of the start in every run. */
  lemma {:induction false} ShapeOverRuns(m: Model, cfg: Config, s: Sys, events: seq<Event>)
    requires Inv(m, cfg, s)
    ensures Shape(PointOf(Run(m, cfg, s, events)), s.cache.size, s.cache.limit, s.cache.alloc.total)
  {
    ShapeClosed(m, cfg, s.cache.size, s.cache.limit, s.cache.alloc.total);
    RunKeeps(m, cfg, (a: Point) => Shape(a, s.cache.size, s.cache.limit, s.cache.alloc.total), s, events);
  }

  // -- terminal residents ---------------------------------------------------------------------------------

  /** Request `i` is resident and terminal, not in flight and not finalized, and holds this table. */
  ghost predicate Stuck(a: Point, i: nat, state: RequestState, table: seq<nat>) {
    && i in a.s.active && i < |a.s.reqs| && i !in ItemIds(a.items)
    && a.s.reqs[i].Terminal() && a.s.reqs[i].state == state && a.s.reqs[i].finalized == 0
    && i in a.s.cache.tables && a.s.cache.tables[i] == table
  }

  /** Moves that take a request off the active list, or change its state, touch others only. */
  lemma {:induction false} StuckUntouched(m: Model, cfg: Config, a: Point, v: Move, i: nat)
    requires Tidy(a) && Guard(m, cfg, a, v) && OneRecord(v) && i in a.s.active && a.s.Get(i).Terminal()
    requires i !in ItemIds(a.items)
    ensures v.MConsume? || v.MDrain? || TouchedId(a, v) != i
  {
    if v.MFinal? || v.MToken? || v.MPrefill? {
      HeadNot(a.items, i);
    } else if v.MAdmit? {
      assert a.s.waiting[0] in a.s.waiting;
    }
  }

  lemma {:induction false} StuckRecord(m: Model, cfg: Config, a: Point, v: Move, i: nat)
    requires Tidy(a) && Guard(m, cfg, a, v) && OneRecord(v) && i in a.s.active && i < |a.s.reqs|
    requires a.s.reqs[i].Terminal() && i !in ItemIds(a.items)
    ensures var b := Moved(cfg, a, v).s;
      |b.reqs| == |a.s.reqs| && b.reqs[i].state == a.s.reqs[i].state && b.reqs[i].finalized == a.s.reqs[i].finalized
  {
    StuckUntouched(m, cfg, a, v, i);
    TouchedExists(m, cfg, a, v);
    Touch(cfg, a, v);
    hide Moved;
    if v.MDrain? {
      DrainedFacts(a.s.Get(v.id), cfg.streamCapacity, v.now);
    }
  }

  /** And the active list keeps it. */
  lemma {:induction false} StuckPlace(m: Model, cfg: Config, a: Point, v: Move, i: nat)
    requires Tidy(a) && Guard(m, cfg, a, v) && OneRecord(v) && i in a.s.active && a.s.Get(i).Terminal()
    requires i !in ItemIds(a.items)
    ensures i in Moved(cfg, a, v).s.active
    ensures forall k :: 0 <= k < |Moved(cfg, a, v).items| ==> Moved(cfg, a, v).items[k].id != i
  {
    hide Teardown, WithToken, Drained, FinalRecord, Cache.Reserve, Cache.Restore, Recomputed, NoDup, RemoveFirst,
      Counted;
    StuckUntouched(m, cfg, a, v, i);
    RemoveFirstFacts(a.s.active, TouchedId(a, v));
    RemoveFirstFacts(a.s.active, HeadId(a.items));
    ItemsAfter(m, cfg, a, v);
    assert forall k :: 0 <= k < |a.items| ==> ItemIds(a.items)[k] == a.items[k].id;
  }

  lemma {:induction false} StuckOne(m: Model, cfg: Config, a: Point, v: Move, i: nat, state: RequestState,
                                    table: seq<nat>)
    requires Ok(m, cfg, a) && Guard(m, cfg, a, v) && OneRecord(v) && Stuck(a, i, state, table)
    ensures Stuck(Moved(cfg, a, v), i, state, table)
  {
    hide Ok, Guard, OneRecord, Moved, Tidy;
    OkTidy(m, cfg, a);
    StuckRecord(m, cfg, a, v, i);
    StuckPlace(m, cfg, a, v, i);
    StuckUntouched(m, cfg, a, v, i);
    CacheAfter(m, cfg, a, v, i);
  }

  /** A plan names unfinished requests only. */
  lemma {:induction false} PlanOfLiving(cfg: Config, s: Sys, i: nat)
    requires NoDup(s.active) && s.Get(i).Terminal()
    ensures i !in ItemIds(BuildPlan(cfg, s))
  {
    hide BuildPlan, NoDup, TokenCount, ItemMatches;
    PlanGuarantees(cfg, s);
    var items := BuildPlan(cfg, s);
    forall k | 0 <= k < |items| ensures items[k].id != i {
      assert NextSlice(s, items[k]);
    }
  }

  lemma {:induction false} StuckMove(m: Model, cfg: Config, a: Point, v: Move, i: nat, state: RequestState,
                                     table: seq<nat>)
    requires Ok(m, cfg, a) && Guard(m, cfg, a, v) && Stuck(a, i, state, table)
    ensures Stuck(Moved(cfg, a, v), i, state, table)
  {
    hide Ok, BuildPlan, Land;
    OkTidy(m, cfg, a);
    if OneRecord(v) {
      StuckOne(m, cfg, a, v, i, state, table);
    } else {
      match v
      case MPlan => PlanOfLiving(cfg, a.s, i);
      case MLand(outcome, cache, ran) =>
        LandRecords(a, outcome, cache, ran);
        LandedLists(a, outcome, cache, ran);
      case MSkip => StuckSkip(a, i);
      case MSubmit(_, _, _, _) =>
      case MIdle =>
    }
  }

  lemma {:induction false} LandedLists(a: Point, outcome: Outcome, cache: Cache, ran: bool)
    requires Tidy(a)
    ensures var b := Land(a.s, a.items, outcome, cache, ran); b.active == a.s.active && b.cache == cache
  {
    FedAllFacts(a.s, a.items);
  }

  lemma {:induction false} StuckSkip(a: Point, i: nat)
    requires i !in ItemIds(a.items)
    ensures i !in ItemIds(Rest(a.items, HeadId(a.items)))
  {
    var rest := Rest(a.items, HeadId(a.items));
    forall k | 0 <= k < |rest| ensures rest[k].id in ItemIds(a.items) {
      assert ItemIds(a.items)[if rest == a.items then k else k + 1] == rest[k].id;
    }
  }

  lemma {:induction false} StuckClosed(m: Model, cfg: Config, i: nat, state: RequestState, table: seq<nat>)
    ensures Closed(m, cfg, (a: Point) => Stuck(a, i, state, table))
  {
    hide Stuck, Moved;
    var P := (a: Point) => Stuck(a, i, state, table);
    forall a, v | Enabled(m, cfg, a, v) && P(a) ensures P(Moved(cfg, a, v)) {
      StuckMove(m, cfg, a, v, i, state, table);
    }
    forall a: Point, mode: Mode | a.items == [] && P(a) ensures P(a.(mode := mode)) {
      StuckMode(a, mode, i, state, table);
    }
  }

  lemma {:induction false} StuckMode(a: Point, mode: Mode, i: nat, state: RequestState, table: seq<nat>)
    requires Stuck(a, i, state, table)
    ensures Stuck(a.(mode := mode), i, state, table)
  {
  }

  /**
   * Over every run: a terminal resident that is not in flight stays one under whatever follows. It keeps its place
   * among the residents, its state and its blocks, is never planned again and never finalized.
   */
  lemma {:induction false} StuckForGood(m: Model, cfg: Config, s0: Sys, before: seq<Event>, after: seq<Event>, i: nat)
    requires Initial(m, s0)
    requires var s := Run(m, cfg, s0, before); i in s.active && s.Get(i).Terminal() && i !in s.InFlight()
    ensures var s, t := Run(m, cfg, s0, before), Run(m, cfg, Run(m, cfg, s0, before), after);
      && i < |s.reqs| && i in s.cache.tables
      && i in t.active && i < |t.reqs| && i !in t.InFlight() && t.reqs[i].state == s.reqs[i].state
      && t.reqs[i].finalized == 0 && i in t.cache.tables && t.cache.tables[i] == s.cache.tables[i]
  {
    hide Run, Inv, Stuck;
    RunInv(m, cfg, s0, before);
    var s := Run(m, cfg, s0, before);
    StuckHere(m, cfg, s, i);
    StuckClosed(m, cfg, i, s.reqs[i].state, s.cache.tables[i]);
    RunKeeps(m, cfg, (a: Point) => Stuck(a, i, s.reqs[i].state, s.cache.tables[i]), s, after);
    StuckThere(m, cfg, Run(m, cfg, s, after), i, s.reqs[i].state, s.cache.tables[i]);
  }

  lemma {:induction false} StuckHere(m: Model, cfg: Config, s: Sys, i: nat)
    requires Inv(m, cfg, s) && i in s.active && s.Get(i).Terminal() && i !in s.InFlight()
    ensures i < |s.reqs| && i in s.cache.tables && Stuck(PointOf(s), i, s.reqs[i].state, s.cache.tables[i])
  {
    hide Cache.Valid, Agrees, AllFaithful;
    InvParts(m, cfg, s);
    assert ItemIds([]) == [];
  }

  lemma {:induction false} StuckThere(m: Model, cfg: Config, t: Sys, i: nat, state: RequestState, table: seq<nat>)
    requires Inv(m, cfg, t) && Stuck(PointOf(t), i, state, table)
    ensures i in t.active && i < |t.reqs| && i !in t.InFlight() && t.reqs[i].state == state
    ensures t.reqs[i].finalized == 0 && i in t.cache.tables && t.cache.tables[i] == table
  {
  }

  // -- when one arises --------------------------------------------------------------------------------------

  lemma {:induction false} PostItemElse(cfg: Config, s: Sys, item: BatchItem, outputs: map<nat, Token>, now: int,
                                        i: nat)
    requires i < |s.reqs| && item.id != i
    ensures var t := PostItem(cfg, s, item, outputs, now); |t.reqs| == |s.reqs| && t.reqs[i] == s.reqs[i]
  {
    hide WithToken, FinalRecord, Teardown, Recomputed;
  }

  lemma {:induction false} FinalizedOnce(cfg: Config, s: Sys, i: nat, now: int)
    requires i < |s.reqs| && s.reqs[i].finalized == 0
    ensures var t := Finalize(cfg, s, i, now); |t.reqs| == |s.reqs| && t.reqs[i].finalized == 1
  {
    FinalRecordFacts(s.reqs[i], cfg.streamCapacity, now);
  }

  lemma {:induction false} TailIds(items: seq<BatchItem>, i: nat)
    requires items != [] && NoDup(ItemIds(items))
    ensures NoDup(ItemIds(items[1..])) && (i in ItemIds(items) <==> i == items[0].id || i in ItemIds(items[1..]))
    ensures items[0].id !in ItemIds(items[1..])
  {
    assert ItemIds(items) == [items[0].id] + ItemIds(items[1..]);
    NoDupConcat([items[0].id], ItemIds(items[1..]));
  }

  lemma {:induction false} PostRanElse(cfg: Config, s: Sys, items: seq<BatchItem>, outputs: map<nat, Token>, now: int,
                                       i: nat)
    requires i < |s.reqs| && i !in ItemIds(items) && NoDup(ItemIds(items))
    ensures var t := PostRan(cfg, s, items, outputs, now); |t.reqs| == |s.reqs| && t.reqs[i] == s.reqs[i]
    decreases |items|
  {
    hide PostItem;
    if items != [] {
      TailIds(items, i);
      PostItemElse(cfg, s, items[0], outputs, now, i);
      PostRanElse(cfg, PostItem(cfg, s, items[0], outputs, now), items[1..], outputs, now, i);
    }
  }

  /** After a completed forward, a terminal request is finalized if and only if it was planned. */
  lemma {:induction false} PostRanFinalizes(cfg: Config, s: Sys, items: seq<BatchItem>, outputs: map<nat, Token>,
                                            now: int, i: nat)
    requires i < |s.reqs| && s.reqs[i].Terminal() && s.reqs[i].finalized == 0 && NoDup(ItemIds(items))
    ensures var t := PostRan(cfg, s, items, outputs, now);
      i < |t.reqs| && (t.reqs[i].finalized == 0 <==> i !in ItemIds(items))
    decreases |items|
  {
    hide Finalize;
    if items != [] {
      TailIds(items, i);
      if items[0].id == i {
        FinalizedOnce(cfg, s, i, now);
        PostRanElse(cfg, Finalize(cfg, s, i, now), items[1..], outputs, now, i);
      } else {
        PostItemElse(cfg, s, items[0], outputs, now, i);
        hide PostItem;
        PostRanFinalizes(cfg, PostItem(cfg, s, items[0], outputs, now), items[1..], outputs, now, i);
      }
    }
  }

  /** One turn of the loop over the items of a crashed forward. */
  function CrashedOne(cfg: Config, s: Sys, j: nat, now: int): Sys {
    if s.Get(j).Terminal() then Finalize(cfg, s, j, now) else Fail(cfg, s, j, false, now)
  }

  lemma {:induction false} CrashedElse(cfg: Config, s: Sys, j: nat, now: int, i: nat)
    requires i < |s.reqs| && j != i
    ensures var t := CrashedOne(cfg, s, j, now); |t.reqs| == |s.reqs| && t.reqs[i] == s.reqs[i]
    ensures var t := Fail(cfg, s, j, true, now); |t.reqs| == |s.reqs| && t.reqs[i] == s.reqs[i]
  {
    hide FinalRecord, Teardown;
  }

  lemma {:induction false} PostCrashedElse(cfg: Config, s: Sys, items: seq<BatchItem>, now: int, i: nat)
    requires i < |s.reqs| && i !in ItemIds(items) && NoDup(ItemIds(items))
    ensures var t := PostCrashed(cfg, s, items, now); |t.reqs| == |s.reqs| && t.reqs[i] == s.reqs[i]
    decreases |items|
  {
    if items != [] {
      TailIds(items, i);
      CrashedElse(cfg, s, items[0].id, now, i);
      hide Fail, Finalize;
      PostCrashedElse(cfg, CrashedOne(cfg, s, items[0].id, now), items[1..], now, i);
    }
  }

  lemma {:induction false} PostCrashedFinalizes(cfg: Config, s: Sys, items: seq<BatchItem>, now: int, i: nat)
    requires i < |s.reqs| && s.reqs[i].Terminal() && s.reqs[i].finalized == 0 && NoDup(ItemIds(items))
    ensures var t := PostCrashed(cfg, s, items, now);
      i < |t.reqs| && (t.reqs[i].finalized == 0 <==> i !in ItemIds(items))
    decreases |items|
  {
    hide Fail, Finalize;
    if items != [] {
      TailIds(items, i);
      if items[0].id == i {
        FinalizedOnce(cfg, s, i, now);
        PostCrashedElse(cfg, Finalize(cfg, s, i, now), items[1..], now, i);
      } else {
        CrashedElse(cfg, s, items[0].id, now, i);
        PostCrashedFinalizes(cfg, CrashedOne(cfg, s, items[0].id, now), items[1..], now, i);
      }
    }
  }

  /** Nobody terminal is finalized for a capacity error. */
  lemma {:induction false} PostCapacityPasses(cfg: Config, s: Sys, items: seq<BatchItem>, now: int, i: nat)
    requires i < |s.reqs| && s.reqs[i].Terminal()
    ensures var t := PostCapacity(cfg, s, items, now); i < |t.reqs| && t.reqs[i] == s.reqs[i]
  {
    if CanPreempt(s) {
      LivingFacts(s, s.active);
    } else {
      PostRejectedPasses(cfg, s, items, now, i);
    }
  }

  lemma {:induction false} PostRejectedPasses(cfg: Config, s: Sys, items: seq<BatchItem>, now: int, i: nat)
    requires i < |s.reqs| && s.reqs[i].Terminal()
    ensures var t := PostRejected(cfg, s, items, now); i < |t.reqs| && t.reqs[i] == s.reqs[i]
    decreases |items|
  {
    if items != [] {
      if items[0].id != i {
        CrashedElse(cfg, s, items[0].id, now, i);
      }
      hide Finalize;
      PostRejectedPasses(cfg, Fail(cfg, s, items[0].id, true, now), items[1..], now, i);
    }
  }

  /**
   * Exactly when a terminal resident is left behind: the forward it was cancelled during failed for capacity, or it
   * was left behind before and is not in the plan.
   */
  lemma {:induction false} LeftBehindExactly(m: Model, cfg: Config, s: Sys, now: int, i: nat)
    requires Inv(m, cfg, s) && s.phase.Landed? && i in s.active && s.Get(i).Terminal()
    ensures i < |s.reqs| && i < |Post(cfg, s, now).reqs|
    ensures Post(cfg, s, now).reqs[i].finalized == 0 <==>
      s.phase.outcome.CapacityError? || i !in ItemIds(s.phase.items)
  {
    hide PostRan, PostCapacity, PostCrashed;
    OpenResident(m, cfg, s, i);
    var idle, items := s.(phase := Idle), s.phase.items;
    match s.phase.outcome
    case Ran(outputs) => PostRanFinalizes(cfg, idle, items, outputs, now, i);
    case CapacityError => PostCapacityPasses(cfg, idle, items, now, i);
    case Crashed => PostCrashedFinalizes(cfg, idle, items, now, i);
  }

  lemma {:induction false} OpenResident(m: Model, cfg: Config, s: Sys, i: nat)
    requires Inv(m, cfg, s) && s.phase.Landed? && i in s.active
    ensures i < |s.reqs| && s.reqs[i].finalized == 0 && NoDup(ItemIds(s.phase.items))
  {
    hide CacheOk, AllFaithful, Residents;
    InvParts(m, cfg, s);
  }

  // -- events nobody will deliver -----------------------------------------------------------------------------

  /** Request `i` is finalized, with these events pending and these delivered or in its queue. */
  ghost predicate Sealed(a: Point, i: nat, pending: seq<StreamEvent>, sent: seq<StreamEvent>) {
    && i < |a.s.reqs| && a.s.reqs[i].finalized > 0
    && a.s.reqs[i].pending == pending && a.s.reqs[i].consumed + a.s.reqs[i].queue == sent
  }

  lemma {:induction false} SealedMove(m: Model, cfg: Config, a: Point, v: Move, i: nat, pending: seq<StreamEvent>,
                                      sent: seq<StreamEvent>)
    requires Ok(m, cfg, a) && Guard(m, cfg, a, v) && Sealed(a, i, pending, sent)
    ensures Sealed(Moved(cfg, a, v), i, pending, sent)
  {
    hide Ok, BuildPlan, Land;
    OkTidy(m, cfg, a);
    if OneRecord(v) {
      TouchedExists(m, cfg, a, v);
      Touch(cfg, a, v);
      hide Moved;
      if v.MConsume? && v.id == i && a.s.reqs[i].queue != [] {
        ConsumedSame(a.s.reqs[i]);
      }
    } else if v.MLand? {
      LandRecords(a, v.outcome, v.cache, v.ran);
    }
  }

  lemma {:induction false} ConsumedSame(r: Req)
    requires r.queue != []
    ensures (r.consumed + [r.queue[0]]) + r.queue[1..] == r.consumed + r.queue
  {
  }

  lemma {:induction false} SealedClosed(m: Model, cfg: Config, i: nat, pending: seq<StreamEvent>,
                                        sent: seq<StreamEvent>)
    ensures Closed(m, cfg, (a: Point) => Sealed(a, i, pending, sent))
  {
    hide Sealed, Moved;
    var P := (a: Point) => Sealed(a, i, pending, sent);
    forall a, v | Enabled(m, cfg, a, v) && P(a) ensures P(Moved(cfg, a, v)) {
      SealedMove(m, cfg, a, v, i, pending, sent);
    }
    forall a: Point, mode: Mode | a.items == [] && P(a) ensures P(a.(mode := mode)) {
      SealedMode(a, mode, i, pending, sent);
    }
  }

  lemma {:induction false} SealedMode(a: Point, mode: Mode, i: nat, pending: seq<StreamEvent>, sent: seq<StreamEvent>)
    requires Sealed(a, i, pending, sent)
    ensures Sealed(a.(mode := mode), i, pending, sent)
  {
  }

  /**
   * Over every run: once a request is finalized, what is pending stays pending whatever follows and whatever its
   * client takes off the queue; and the client has been or will be offered its whole stream if and only if nothing
   * was pending then.
   */
  lemma {:induction false} PendingForGood(m: Model, cfg: Config, s0: Sys, before: seq<Event>, after: seq<Event>, i: nat)
    requires Initial(m, s0) && i < |Run(m, cfg, s0, before).reqs| && Run(m, cfg, s0, before).reqs[i].finalized > 0
    ensures var s, t := Run(m, cfg, s0, before), Run(m, cfg, Run(m, cfg, s0, before), after);
      && i < |t.reqs| && t.reqs[i].pending == s.reqs[i].pending
      && t.reqs[i].consumed + t.reqs[i].queue == s.reqs[i].consumed + s.reqs[i].queue
      && (t.reqs[i].consumed + t.reqs[i].queue == TokenEvents(s.reqs[i].generated, s.reqs[i].eos) + [STOP] <==>
          s.reqs[i].pending == [])
  {
    hide Run, Inv;
    RunInv(m, cfg, s0, before);
    StreamsOverRuns(m, cfg, s0, before, i);
    var s := Run(m, cfg, s0, before);
    var r := s.reqs[i];
    SealedClosed(m, cfg, i, r.pending, r.consumed + r.queue);
    SealedHere(s, i);
    RunKeeps(m, cfg, (a: Point) => Sealed(a, i, r.pending, r.consumed + r.queue), s, after);
    StreamSplit(cfg, r);
  }

  lemma {:induction false} SealedHere(s: Sys, i: nat)
    requires i < |s.reqs| && s.reqs[i].finalized > 0
    ensures Sealed(PointOf(s), i, s.reqs[i].pending, s.reqs[i].consumed + s.reqs[i].queue)
  {
  }

  lemma {:induction false} StreamSplit(cfg: Config, r: Req)
    requires StreamOk(cfg, r) && r.finalized > 0
    ensures r.consumed + r.queue == TokenEvents(r.generated, r.eos) + [STOP] <==> r.pending == []
  {
    var sent := r.consumed + r.queue;
    assert |sent + r.pending| == |sent| + |r.pending|;
  }
}
