/** Who leaves the queue and the engine before a plan, and in what order. */
module SchedulerQueue {
  import opened Lists
  import opened Transformer
  import opened KvCache
  import opened Scheduling
  import opened SchedulerCore
  import opened SchedulerRecords

  predicate Overdue(cfg: Config, r: Req, now: int) {
    now - r.arrival > cfg.queueTimeout
  }

  predicate StalledTooLong(cfg: Config, r: Req, now: int) {
    !r.Terminal() && r.stalled.Some? && now - r.stalled.value > cfg.stallTimeout
  }

  // -- the queue ---------------------------------------------------------------------------------

  /** What reaping does to a waiter's record. */
  ghost function WaiterRule(cfg: Config, now: int): (nat, Req, Req) -> bool {
    (i: nat, r: Req, r': Req) =>
      if Overdue(cfg, r, now) then EndsAs(cfg, r, r', TimedOut, r.rejected, now) else r' == r
  }

  lemma {:induction false} TimeOutLeaves(m: Model, cfg: Config, s: Sys, i: nat, now: int)
    requires Core(m, cfg, s, [], Unfed) && i in s.waiting && Overdue(cfg, s.Get(i), now)
    ensures var t := TimeOut(cfg, s, i, now); Each(s, t, [i], WaiterRule(cfg, now)) && Left(s, t, [i])
  {
    hide Cache.Valid, EndsAs, Finalize;
    RemoveFirstFacts(s.waiting, i);
    RemoveFirstAbsent(RemoveFirst(s.waiting, i), i);
    var r := s.Get(i).(state := TimedOut);
    assert r == s.Get(i).(state := TimedOut, rejected := s.Get(i).rejected);
    assert TimeOut(cfg, s, i, now) == Finalize(cfg, s.Set(i, r), i, now) by {
      assert Finalize(cfg, s.(waiting := RemoveFirst(s.waiting, i)).Set(i, r), i, now) ==
        Finalize(cfg, s.Set(i, r), i, now) by {
        FinalizedWaiting(cfg, s.Set(i, r), i, now);
      }
    }
    FinalizeLeaves(cfg, s, i, TimedOut, s.Get(i).rejected, now);
  }

  lemma {:induction false} FinalizedWaiting(cfg: Config, s: Sys, i: nat, now: int)
    requires RemoveFirst(RemoveFirst(s.waiting, i), i) == RemoveFirst(s.waiting, i)
    ensures Finalize(cfg, s.(waiting := RemoveFirst(s.waiting, i)), i, now) == Finalize(cfg, s, i, now)
  {
    hide Teardown, FinalRecord, Counted, RemoveFirst;
  }

  /** The overdue ones of `ids`, in their order. */
  function Overdues(cfg: Config, s: Sys, ids: seq<nat>, now: int): seq<nat> {
    if ids == [] then [] else
    (if Overdue(cfg, s.Get(ids[0]), now) then [ids[0]] else []) + Overdues(cfg, s, ids[1..], now)
  }

  lemma {:induction false} OverduesAre(cfg: Config, s: Sys, ids: seq<nat>, now: int)
    ensures forall i :: i in Overdues(cfg, s, ids, now) <==> i in ids && Overdue(cfg, s.Get(i), now)
  {
    if ids != [] {
      assert ids == [ids[0]] + ids[1..];
      OverduesAre(cfg, s, ids[1..], now);
    }
  }

  lemma {:induction false} OverduesSame(cfg: Config, s: Sys, t: Sys, ids: seq<nat>, now: int)
    requires forall i :: i in ids ==> t.Get(i) == s.Get(i)
    ensures Overdues(cfg, t, ids, now) == Overdues(cfg, s, ids, now)
  {
    if ids != [] {
      assert ids == [ids[0]] + ids[1..];
      OverduesSame(cfg, s, t, ids[1..], now);
    }
  }

  /** The first of `ids`, then the others. */
  lemma {:induction false} WaitersNext(cfg: Config, s: Sys, t: Sys, u: Sys, ids: seq<nat>, now: int)
    requires ids != [] && NoDup(ids) && Each(s, t, [ids[0]], WaiterRule(cfg, now))
    requires if Overdue(cfg, s.Get(ids[0]), now) then Left(s, t, [ids[0]]) else t == s
    requires Each(t, u, ids[1..], WaiterRule(cfg, now)) && Left(t, u, Overdues(cfg, t, ids[1..], now))
    ensures Each(s, u, ids, WaiterRule(cfg, now)) && Left(s, u, Overdues(cfg, s, ids, now))
  {
    hide Left, WaiterRule, Overdue, NoDup;
    OthersLater(ids);
    EachFirst(s, t, u, ids, WaiterRule(cfg, now));
    EachSame(s, t, [ids[0]], WaiterRule(cfg, now), ids[1..]);
    hide Each;
    OverduesSame(cfg, s, t, ids[1..], now);
    if Overdue(cfg, s.Get(ids[0]), now) {
      LeftThen(s, t, u, [ids[0]], Overdues(cfg, t, ids[1..], now));
    } else {
      assert Overdues(cfg, s, ids, now) == Overdues(cfg, s, ids[1..], now);
    }
  }

  /** The first half of reaping removes exactly the overdue waiters, by their original arrival time. */
  lemma {:induction false} ReapWaitingExactly(m: Model, cfg: Config, s: Sys, ids: seq<nat>, now: int)
    requires Core(m, cfg, s, [], Unfed) && NoDup(ids) && forall i :: i in ids ==> i in s.waiting
    ensures var t := ReapWaiting(cfg, s, ids, now);
      Each(s, t, ids, WaiterRule(cfg, now)) && Left(s, t, Overdues(cfg, s, ids, now))
    decreases |ids|
  {
    hide Core, Cancel, TimeOut, Left, Each, WaiterRule, Overdue, NoDup;
    if ids == [] {
      EachNone(s, s, WaiterRule(cfg, now));
      LeftNone(s, s);
    } else {
      var i := ids[0];
      var t := if Overdue(cfg, s.Get(i), now) then TimeOut(cfg, s, i, now) else s;
      OthersLater(ids);
      WaiterTurn(m, cfg, s, ids, now);
      ReapWaitingExactly(m, cfg, t, ids[1..], now);
      WaitersNext(cfg, s, t, ReapWaiting(cfg, s, ids, now), ids, now);
    }
  }

  /** One turn of the loop over the waiters. */
  lemma {:induction false} WaiterTurn(m: Model, cfg: Config, s: Sys, ids: seq<nat>, now: int)
    requires Core(m, cfg, s, [], Unfed) && NoDup(ids) && ids != [] && forall i :: i in ids ==> i in s.waiting
    ensures var i := ids[0];
      var t := if Overdue(cfg, s.Get(i), now) then TimeOut(cfg, s, i, now) else s;
      && Core(m, cfg, t, [], Unfed) && Each(s, t, [i], WaiterRule(cfg, now))
      && (forall j :: j in ids[1..] ==> j in t.waiting)
      && ReapWaiting(cfg, s, ids, now) == ReapWaiting(cfg, t, ids[1..], now)
      && (Overdue(cfg, s.Get(i), now) ==> Left(s, t, [i]))
  {
    hide Core, TimeOut, EndsAs, NoDup;
    var i := ids[0];
    WaitingRecord(m, cfg, s, i);
    OthersLater(ids);
    if Overdue(cfg, s.Get(i), now) {
      TimeOutCore(m, cfg, s, i, now);
      TimeOutLeaves(m, cfg, s, i, now);
      WithoutFacts(s.waiting, [i]);
    }
  }

  lemma {:induction false} EachSame(s: Sys, t: Sys, ids: seq<nat>, R: (nat, Req, Req) -> bool, others: seq<nat>)
    requires Each(s, t, ids, R) && forall i :: i in others ==> i !in ids
    ensures forall i :: i in others ==> t.Get(i) == s.Get(i)
  {
  }

  lemma {:induction false} WaitingRecord(m: Model, cfg: Config, s: Sys, i: nat)
    requires Core(m, cfg, s, [], Unfed) && i in s.waiting
    ensures i < |s.reqs| && !s.reqs[i].Terminal()
  {
  }

  // -- stalled consumers ----------------------------------------------------------------------------

  /** What reaping does to a resident's record. */
  ghost function ResidentRule(cfg: Config, now: int): (nat, Req, Req) -> bool {
    (i: nat, r: Req, r': Req) =>
      if StalledTooLong(cfg, r, now) then EndsAs(cfg, r, r', Cancelled, r.rejected, now) else r' == r
  }

  lemma {:induction false} CancelLeaves(m: Model, cfg: Config, s: Sys, i: nat, now: int)
    requires Core(m, cfg, s, [], Unfed) && s.phase.Idle? && i in s.active && StalledTooLong(cfg, s.Get(i), now)
    ensures var t := Cancel(cfg, s, i, now); Each(s, t, [i], ResidentRule(cfg, now)) && Left(s, t, [i])
  {
    hide Cache.Valid, EndsAs, Finalize;
    var r := s.Get(i);
    assert r.(state := Cancelled) == r.(state := Cancelled, rejected := r.rejected);
    FinalizeLeaves(cfg, s, i, Cancelled, r.rejected, now);
  }

  /** Cancelling a terminal request does nothing. */
  lemma {:induction false} ReapActiveTurn(cfg: Config, s: Sys, ids: seq<nat>, now: int)
    requires ids != []
    ensures ReapActive(cfg, s, ids, now) ==
            ReapActive(cfg, if StalledTooLong(cfg, s.Get(ids[0]), now) then Cancel(cfg, s, ids[0], now) else s,
              ids[1..], now)
  {
    hide Finalize;
  }

  /** One turn of the loop over the residents. */
  lemma {:induction false} ResidentTurn(m: Model, cfg: Config, s: Sys, ids: seq<nat>, now: int)
    requires Core(m, cfg, s, [], Unfed) && s.phase.Idle?
    requires NoDup(ids) && ids != [] && forall i :: i in ids ==> i in s.active
    ensures var i := ids[0];
      var t := if StalledTooLong(cfg, s.Get(i), now) then Cancel(cfg, s, i, now) else s;
      && Core(m, cfg, t, [], Unfed) && t.phase.Idle? && Each(s, t, [i], ResidentRule(cfg, now))
      && (forall j :: j in ids[1..] ==> j in t.active)
      && (StalledTooLong(cfg, s.Get(i), now) ==> Left(s, t, [i]))
  {
    hide Core, Cancel, EndsAs, NoDup;
    var i := ids[0];
    ActiveRecord(m, cfg, s, i);
    OthersLater(ids);
    if StalledTooLong(cfg, s.Get(i), now) {
      CancelCore(m, cfg, s, i, now, [], Unfed);
      CancelShape(cfg, s, i, now);
      CancelLeaves(m, cfg, s, i, now);
      WithoutFacts(s.active, [i]);
    }
  }

  /** The ones of `ids` whose consumer has stalled too long, in their order. */
  function Stallers(cfg: Config, s: Sys, ids: seq<nat>, now: int): seq<nat> {
    if ids == [] then [] else
    (if StalledTooLong(cfg, s.Get(ids[0]), now) then [ids[0]] else []) + Stallers(cfg, s, ids[1..], now)
  }

  lemma {:induction false} StallersAre(cfg: Config, s: Sys, ids: seq<nat>, now: int)
    ensures forall i :: i in Stallers(cfg, s, ids, now) <==> i in ids && StalledTooLong(cfg, s.Get(i), now)
  {
    if ids != [] {
      assert ids == [ids[0]] + ids[1..];
      StallersAre(cfg, s, ids[1..], now);
    }
  }

  lemma {:induction false} StallersSame(cfg: Config, s: Sys, t: Sys, ids: seq<nat>, now: int)
    requires forall i :: i in ids ==> t.Get(i) == s.Get(i)
    ensures Stallers(cfg, t, ids, now) == Stallers(cfg, s, ids, now)
  {
    if ids != [] {
      assert ids == [ids[0]] + ids[1..];
      StallersSame(cfg, s, t, ids[1..], now);
    }
  }

  /** The first of `ids`, then the others. */
  lemma {:induction false} ResidentsNext(cfg: Config, s: Sys, t: Sys, u: Sys, ids: seq<nat>, now: int)
    requires ids != [] && NoDup(ids) && Each(s, t, [ids[0]], ResidentRule(cfg, now))
    requires if StalledTooLong(cfg, s.Get(ids[0]), now) then Left(s, t, [ids[0]]) else t == s
    requires Each(t, u, ids[1..], ResidentRule(cfg, now)) && Left(t, u, Stallers(cfg, t, ids[1..], now))
    ensures Each(s, u, ids, ResidentRule(cfg, now)) && Left(s, u, Stallers(cfg, s, ids, now))
  {
    hide Left, ResidentRule, StalledTooLong, NoDup;
    OthersLater(ids);
    EachFirst(s, t, u, ids, ResidentRule(cfg, now));
    EachSame(s, t, [ids[0]], ResidentRule(cfg, now), ids[1..]);
    hide Each;
    StallersSame(cfg, s, t, ids[1..], now);
    if StalledTooLong(cfg, s.Get(ids[0]), now) {
      LeftThen(s, t, u, [ids[0]], Stallers(cfg, t, ids[1..], now));
    } else {
      assert Stallers(cfg, s, ids, now) == Stallers(cfg, s, ids[1..], now);
    }
  }

  /** The second half of reaping cancels exactly the residents whose consumer has stalled too long. */
  lemma {:induction false} ReapActiveExactly(m: Model, cfg: Config, s: Sys, ids: seq<nat>, now: int)
    requires Core(m, cfg, s, [], Unfed) && s.phase.Idle? && NoDup(ids) && forall i :: i in ids ==> i in s.active
    ensures var t := ReapActive(cfg, s, ids, now);
      Each(s, t, ids, ResidentRule(cfg, now)) && Left(s, t, Stallers(cfg, s, ids, now))
    decreases |ids|
  {
    hide Core, Cancel, TimeOut, Left, Each, ResidentRule, StalledTooLong, NoDup;
    if ids == [] {
      EachNone(s, s, ResidentRule(cfg, now));
      LeftNone(s, s);
    } else {
      var i := ids[0];
      var t := if StalledTooLong(cfg, s.Get(i), now) then Cancel(cfg, s, i, now) else s;
      OthersLater(ids);
      ReapActiveTurn(cfg, s, ids, now);
      ResidentTurn(m, cfg, s, ids, now);
      ReapActiveExactly(m, cfg, t, ids[1..], now);
      ResidentsNext(cfg, s, t, ReapActive(cfg, s, ids, now), ids, now);
    }
  }

  lemma {:induction false} OthersLater(ids: seq<nat>)
    requires ids != [] && NoDup(ids)
    ensures NoDup(ids[1..]) && ids[0] !in ids[1..] && forall j :: j in ids[1..] ==> j in ids
  {
    assert ids == [ids[0]] + ids[1..];
    NoDupConcat([ids[0]], ids[1..]);
  }

  lemma {:induction false} ActiveRecord(m: Model, cfg: Config, s: Sys, i: nat)
    requires Core(m, cfg, s, [], Unfed) && i in s.active
    ensures i < |s.reqs|
  {
  }

  // -- admission ---------------------------------------------------------------------------------------

  lemma {:induction false} AdmitOneShape(m: Model, cfg: Config, s: Sys, now: int)
    requires Core(m, cfg, s, [], Unfed) && s.waiting != [] && |s.active| < cfg.activeLimit && !Blocked(s, s.waiting[0])
    ensures var i := s.waiting[0]; var s' := AdmitOne(cfg, s.(waiting := s.waiting[1..]), i, now);
      && s'.active == s.active + [i] && s'.waiting == s.waiting[1..]
      && forall j :: s'.Get(j).preemptions == s.Get(j).preemptions
  {
    hide Cache.Valid, Cache.Restore;
    AdmitOneCore(m, cfg, s, now);
  }

  /** The first `k` of the queue have become residents, in order; then something stopped admission. */
  ghost predicate AdmittedFirst(cfg: Config, s: Sys, s': Sys, k: nat) {
    && k <= |s.waiting| && s'.active == s.active + s.waiting[..k] && s'.waiting == s.waiting[k..]
    && (k == |s.waiting| || |s'.active| >= cfg.activeLimit || (s.Get(s.waiting[k]).preemptions > 0 && s'.active != []))
    && (forall j :: 0 <= j < k && s.Get(s.waiting[j]).preemptions > 0 ==> j == 0 && s.active == [])
  }

  lemma {:induction false} AdmittedNext(cfg: Config, s: Sys, t: Sys, s': Sys, n: nat)
    requires s.waiting != [] && !Blocked(s, s.waiting[0])
    requires t.active == s.active + [s.waiting[0]] && t.waiting == s.waiting[1..]
    requires forall j :: t.Get(j).preemptions == s.Get(j).preemptions
    requires AdmittedFirst(cfg, t, s', n)
    ensures AdmittedFirst(cfg, s, s', n + 1)
  {
    assert s.active + [s.waiting[0]] + t.waiting[..n] == s.active + s.waiting[..n + 1];
    assert t.waiting[n..] == s.waiting[n + 1..];
    assert forall j :: 0 < j < |s.waiting| ==> s.waiting[j] == t.waiting[j - 1];
    assert t.active != [];
  }

  /**
   * Admission is first come, first served: the leading part of the queue becomes resident in its order, until
   * the queue is empty, the limit is reached, or a preempted request is at the head while others are resident.
   * A preempted request is admitted only to an empty engine.
   */
  lemma {:induction false} AdmitInOrder(m: Model, cfg: Config, s: Sys, now: int) returns (k: nat)
    requires Core(m, cfg, s, [], Unfed)
    ensures AdmittedFirst(cfg, s, AdmitWaiting(cfg, s, now), k)
    decreases |s.waiting|
  {
    hide Core, AdmitOne, AdmittedFirst;
    if s.waiting == [] || |s.active| >= cfg.activeLimit || Blocked(s, s.waiting[0]) {
      k := 0;
      AdmittedNone(cfg, s);
    } else {
      var t := AdmitOne(cfg, s.(waiting := s.waiting[1..]), s.waiting[0], now);
      AdmitOneCore(m, cfg, s, now);
      AdmitOneShape(m, cfg, s, now);
      RemoveFirstShrinks(s.waiting[1..], s.waiting[0]);
      var n := AdmitInOrder(m, cfg, t, now);
      k := n + 1;
      AdmittedNext(cfg, s, t, AdmitWaiting(cfg, s, now), n);
    }
  }

  lemma {:induction false} AdmittedNone(cfg: Config, s: Sys)
    requires s.waiting == [] || |s.active| >= cfg.activeLimit || Blocked(s, s.waiting[0])
    ensures AdmittedFirst(cfg, s, s, 0)
  {
    assert s.active + s.waiting[..0] == s.active;
  }

  /** What admission does to a record: the next state, and what the prefix cache already holds counts as fed. */
  ghost function AdmitRule(): (nat, Req, Req) -> bool {
    (i: nat, r: Req, r': Req) => r' == r.(state := Prefill, fed := r'.fed)
  }

  lemma {:induction false} QueueNoDup(m: Model, cfg: Config, s: Sys)
    requires Core(m, cfg, s, [], Unfed)
    ensures NoDup(s.waiting) && NoDup(s.active)
  {
  }

  lemma {:induction false} AdmitOneRecords(m: Model, cfg: Config, s: Sys, now: int)
    requires Core(m, cfg, s, [], Unfed) && s.waiting != [] && |s.active| < cfg.activeLimit && !Blocked(s, s.waiting[0])
    ensures var i := s.waiting[0]; var s' := AdmitOne(cfg, s.(waiting := s.waiting[1..]), i, now);
      Each(s, s', [i], AdmitRule()) && s'.metrics == s.metrics
  {
    hide Cache.Restore, Core;
    AdmitOneCore(m, cfg, s, now);
  }

  lemma {:induction false} RecordsNext(s: Sys, t: Sys, u: Sys, ids: seq<nat>, n: nat)
    requires ids != [] && NoDup(ids) && n < |ids|
    requires Each(s, t, [ids[0]], AdmitRule()) && Each(t, u, ids[1..][..n], AdmitRule())
    ensures Each(s, u, ids[..n + 1], AdmitRule())
  {
    hide Each, AdmitRule;
    assert ids[..n + 1][1..] == ids[1..][..n];
    assert ids == ids[..n + 1] + ids[n + 1..];
    NoDupConcat(ids[..n + 1], ids[n + 1..]);
    EachFirst(s, t, u, ids[..n + 1], AdmitRule());
  }

  /** Admission touches the records of those it admits, and no counter. */
  lemma {:induction false} AdmitRecords(m: Model, cfg: Config, s: Sys, now: int) returns (k: nat)
    requires Core(m, cfg, s, [], Unfed)
    ensures var t := AdmitWaiting(cfg, s, now);
      && |t.active| == |s.active| + k && k <= |s.waiting| && t.metrics == s.metrics
      && Each(s, t, s.waiting[..k], AdmitRule())
    decreases |s.waiting|
  {
    hide Core, AdmitOne, Each, AdmitRule, NoDup;
    if s.waiting == [] || |s.active| >= cfg.activeLimit || Blocked(s, s.waiting[0]) {
      k := 0;
      EachNone(s, s, AdmitRule());
      assert s.waiting[..0] == [];
    } else {
      var t := AdmitOne(cfg, s.(waiting := s.waiting[1..]), s.waiting[0], now);
      AdmitOneCore(m, cfg, s, now);
      AdmitOneShape(m, cfg, s, now);
      AdmitOneRecords(m, cfg, s, now);
      RemoveFirstShrinks(s.waiting[1..], s.waiting[0]);
      QueueNoDup(m, cfg, s);
      var n := AdmitRecords(m, cfg, t, now);
      RecordsNext(s, t, AdmitWaiting(cfg, s, now), s.waiting, n);
      k := n + 1;
    }
  }
}
