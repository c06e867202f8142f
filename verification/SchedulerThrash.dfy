/** Bounded thrash: how many preemptions there can be over every run. */
module SchedulerThrash {
  import opened Lists
  import opened Transformer
  import opened KvCache
  import opened Runner
  import opened Scheduling
  import opened SchedulerCore
  import opened SchedulerRun
  import opened SchedulerMoves
  import opened SchedulerStreams
  import opened SchedulerCounts

  // -- preemptions ------------------------------------------------------------------------------

  /** Preemptions of a request beyond its first. */
  function Repeats(): Req -> nat {
    (r: Req) => if r.preemptions > 0 then r.preemptions - 1 else 0
  }

  /** Requests that have been preempted at least once. */
  function Hit(): Req -> nat {
    (r: Req) => if r.preemptions > 0 then 1 else 0
  }

  /** Requests whose first residency is over: preempted, or finished. */
  function Gone(): Req -> nat {
    (r: Req) => if r.preemptions > 0 || r.finalized > 0 then 1 else 0
  }

  ghost predicate HasPreempted(s: Sys) {
    exists i :: i in s.active && s.Get(i).preemptions > 0
  }

  ghost predicate HasFresh(s: Sys) {
    exists i :: i in s.active && s.Get(i).preemptions == 0
  }

  /**
   * At most one previously preempted request is resident. Repeated preemptions are paid for by requests whose
   * first residency is over, save one that a fresh resident will pay for when it leaves.
   */
  ghost predicate ThrashOk(a: Point) {
    && OneReturned(a.s)
    && Total(a.s.reqs, Repeats()) <= Total(a.s.reqs, Gone()) + (if HasFresh(a.s) && !HasPreempted(a.s) then 1 else 0)
  }

  /** A record changed without touching preemptions, finalization or the active list. */
  lemma {:induction false} QuietThrash(a: Point, b: Point, i: nat, r': Req)
    requires ThrashOk(a) && i < |a.s.reqs| && b.s.reqs == a.s.reqs[i := r'] && b.s.active == a.s.active
    requires r'.preemptions == a.s.reqs[i].preemptions && r'.finalized == a.s.reqs[i].finalized
    ensures ThrashOk(b)
  {
    TotalUpdate(a.s.reqs, Repeats(), i, r');
    TotalUpdate(a.s.reqs, Gone(), i, r');
    assert forall j :: b.s.Get(j).preemptions == a.s.Get(j).preemptions;
    SameKinds(a.s, b.s);
  }

  lemma {:induction false} SameKinds(s: Sys, s': Sys)
    requires s'.active == s.active && forall j :: s'.Get(j).preemptions == s.Get(j).preemptions
    ensures HasFresh(s') == HasFresh(s) && HasPreempted(s') == HasPreempted(s)
  {
    if HasFresh(s) {
      var j :| j in s.active && s.Get(j).preemptions == 0;
      assert j in s'.active && s'.Get(j).preemptions == 0;
    }
    if HasPreempted(s) {
      var j :| j in s.active && s.Get(j).preemptions > 0;
      assert j in s'.active && s'.Get(j).preemptions > 0;
    }
  }

  /** A request leaves for good. */
  lemma {:induction false} LeaveThrash(a: Point, b: Point, i: nat, r': Req)
    requires ThrashOk(a) && i < |a.s.reqs| && b.s.reqs == a.s.reqs[i := r'] && NoDup(a.s.active)
    requires b.s.active == RemoveFirst(a.s.active, i)
    requires r'.preemptions == a.s.reqs[i].preemptions && a.s.reqs[i].finalized == 0 && r'.finalized == 1
    requires i in a.s.active || b.s.active == a.s.active
    ensures ThrashOk(b)
  {
    TotalUpdate(a.s.reqs, Repeats(), i, r');
    TotalUpdate(a.s.reqs, Gone(), i, r');
    RemoveFirstFacts(a.s.active, i);
    assert forall j :: b.s.Get(j).preemptions == a.s.Get(j).preemptions;
    if a.s.reqs[i].preemptions > 0 {
      if i in a.s.active {
        assert a.s.Get(i).preemptions > 0;
        assert HasPreempted(a.s);
      } else {
        SameKinds(a.s, b.s);
      }
    }
  }

  /** A waiting request becomes resident; a preempted one only when nobody else is. */
  lemma {:induction false} AdmitThrash(a: Point, b: Point, i: nat, r': Req)
    requires ThrashOk(a) && i < |a.s.reqs| && b.s.reqs == a.s.reqs[i := r'] && b.s.active == a.s.active + [i]
    requires r'.preemptions == a.s.reqs[i].preemptions && r'.finalized == a.s.reqs[i].finalized
    requires a.s.reqs[i].preemptions > 0 ==> a.s.active == []
    ensures ThrashOk(b)
  {
    TotalUpdate(a.s.reqs, Repeats(), i, r');
    TotalUpdate(a.s.reqs, Gone(), i, r');
    assert forall j :: b.s.Get(j).preemptions == a.s.Get(j).preemptions;
    if r'.preemptions == 0 {
      assert i in b.s.active && b.s.Get(i).preemptions == 0;
      assert HasFresh(b.s);
      if HasPreempted(b.s) {
        var j :| j in b.s.active && b.s.Get(j).preemptions > 0;
        assert j in a.s.active && a.s.Get(j).preemptions > 0;
      }
    }
  }

  /** A victim goes back to the queue while another living request stays. */
  lemma {:induction false} EvictThrash(a: Point, b: Point, i: nat, r': Req, u: nat)
    requires ThrashOk(a) && i < |a.s.reqs| && b.s.reqs == a.s.reqs[i := r'] && NoDup(a.s.active)
    requires i in a.s.active && b.s.active == RemoveFirst(a.s.active, i) && a.s.reqs[i].finalized == 0
    requires r'.preemptions == a.s.reqs[i].preemptions + 1 && r'.finalized == 0
    requires u in a.s.active && u != i
    ensures ThrashOk(b)
  {
    TotalUpdate(a.s.reqs, Repeats(), i, r');
    TotalUpdate(a.s.reqs, Gone(), i, r');
    RemoveFirstFacts(a.s.active, i);
    assert forall j :: j != i ==> b.s.Get(j).preemptions == a.s.Get(j).preemptions;
    if a.s.reqs[i].preemptions > 0 {
      assert a.s.Get(i).preemptions > 0;
      assert HasPreempted(a.s);
      assert u in b.s.active && b.s.Get(u).preemptions == 0;
      assert HasFresh(b.s) && !HasPreempted(b.s);
    }
  }

  /** The active list after a single-record move. */
  lemma {:induction false} ActiveAfter(cfg: Config, a: Point, v: Move)
    requires OneRecord(v) && TouchedId(a, v) < |a.s.reqs|
    requires v.MAdmit? ==> a.s.waiting != [] && a.s.cache.CanReserve(a.s.waiting[0], 0)
    ensures Moved(cfg, a, v).s.active ==
      if Finalizing(a, v) || v.MEvict? then RemoveFirst(a.s.active, TouchedId(a, v))
      else if v.MAdmit? then a.s.active + [TouchedId(a, v)]
      else a.s.active
  {
  }

  lemma {:induction false} OtherLiving(s: Sys, i: nat)
    requires NoDup(s.active) && CanPreempt(s)
    ensures exists u :: u in s.active && u != i
  {
    LivingFacts(s, s.active);
    LivingNoDup(s, s.active);
    var l := Living(s, s.active);
    assert l[0] in l && l[1] in l;
  }

  lemma {:induction false} LivingNoDup(s: Sys, ids: seq<nat>)
    requires NoDup(ids)
    ensures NoDup(Living(s, ids))
  {
    if ids != [] {
      var n := |ids| - 1;
      assert ids == ids[..n] + [ids[n]];
      NoDupConcat(ids[..n], [ids[n]]);
      LivingNoDup(s, ids[..n]);
      LivingFacts(s, ids[..n]);
    }
  }

  lemma {:induction false} OneRecordThrash(m: Model, cfg: Config, a: Point, v: Move)
    requires Tidy(a) && Guard(m, cfg, a, v) && OneRecord(v) && ThrashOk(a)
    ensures ThrashOk(Moved(cfg, a, v))
  {
    TouchedExists(m, cfg, a, v);
    Touch(cfg, a, v);
    RecordAfter(cfg, a, v);
    ActiveAfter(cfg, a, v);
    var i, b, r' := TouchedId(a, v), Moved(cfg, a, v), NewRecord(cfg, a, v);
    if Finalizing(a, v) {
      if i !in a.s.active {
        RemoveFirstAbsent(a.s.active, i);
      }
      LeaveThrash(a, b, i, r');
    } else if v.MEvict? {
      OtherLiving(a.s, i);
      var u :| u in a.s.active && u != i;
      EvictThrash(a, b, i, r', u);
    } else if v.MAdmit? {
      AdmitThrash(a, b, i, r');
    } else {
      QuietThrash(a, b, i, r');
    }
  }

  lemma {:induction false} SameThrash(a: Point, b: Point)
    requires ThrashOk(a) && |b.s.reqs| == |a.s.reqs| && b.s.active == a.s.active
    requires forall i :: 0 <= i < |a.s.reqs| ==>
      b.s.reqs[i].preemptions == a.s.reqs[i].preemptions && b.s.reqs[i].finalized == a.s.reqs[i].finalized
    ensures ThrashOk(b)
  {
    TotalSame(a.s.reqs, b.s.reqs, Repeats());
    TotalSame(a.s.reqs, b.s.reqs, Gone());
    assert forall j :: b.s.Get(j).preemptions == a.s.Get(j).preemptions;
    SameKinds(a.s, b.s);
  }

  lemma {:induction false} SubmitThrash(a: Point, b: Point, r: Req)
    requires ThrashOk(a) && b.s.reqs == a.s.reqs + [r] && b.s.active == a.s.active
    requires r.preemptions == 0 && r.finalized == 0 && forall i :: i in a.s.active ==> i < |a.s.reqs|
    ensures ThrashOk(b)
  {
    TotalSnoc(a.s.reqs, Repeats(), r);
    TotalSnoc(a.s.reqs, Gone(), r);
    assert forall j :: b.s.Get(j).preemptions == a.s.Get(j).preemptions;
    SameKinds(a.s, b.s);
  }

  lemma {:induction false} LandActive(a: Point, outcome: Outcome, cache: Cache, ran: bool)
    requires Tidy(a)
    ensures Land(a.s, a.items, outcome, cache, ran).active == a.s.active
  {
    FedAllFacts(a.s, a.items);
  }

  lemma {:induction false} ThrashMove(m: Model, cfg: Config, a: Point, v: Move)
    requires Tidy(a) && Guard(m, cfg, a, v) && ThrashOk(a)
    ensures ThrashOk(Moved(cfg, a, v))
  {
    hide ThrashOk, Land, BuildPlan, AfterToken, Finalize, Evicted, AdmitOne, Drained, Guard;
    if OneRecord(v) {
      OneRecordThrash(m, cfg, a, v);
    } else if v.MLand? {
      LandRecords(a, v.outcome, v.cache, v.ran);
      LandActive(a, v.outcome, v.cache, v.ran);
      SameThrash(a, Moved(cfg, a, v));
    } else if v.MSubmit? && SubmitCheck(cfg, a.s, v.prompt, v.maxOut).None? {
      SubmitThrash(a, Moved(cfg, a, v), NewRequest(v.prompt, v.maxOut, v.eos, v.now));
    } else {
      SameThrash(a, Moved(cfg, a, v));
    }
  }

  lemma {:induction false} ThrashClosed(m: Model, cfg: Config)
    ensures Closed(m, cfg, (a: Point) => ThrashOk(a))
  {
    var P := (a: Point) => ThrashOk(a);
    forall a, v | Enabled(m, cfg, a, v) && P(a) ensures P(Moved(cfg, a, v)) {
      OkTidy(m, cfg, a);
      ThrashMove(m, cfg, a, v);
    }
  }

  lemma {:induction false} TotalAtMost(reqs: seq<Req>, f: Req -> nat, k: nat)
    requires forall i :: 0 <= i < |reqs| ==> f(reqs[i]) <= k
    ensures Total(reqs, f) <= |reqs| * k
  {
    if reqs != [] {
      TotalAtMost(reqs[..|reqs| - 1], f, k);
    }
  }

  lemma {:induction false} TotalSplit(reqs: seq<Req>)
    ensures Total(reqs, (r: Req) => r.preemptions) == Total(reqs, Hit()) + Total(reqs, Repeats())
  {
    if reqs != [] {
      TotalSplit(reqs[..|reqs| - 1]);
    }
  }

  /** With a fresh resident around, not everybody's first residency is over. */
  lemma {:induction false} SomeoneStays(reqs: seq<Req>, i: nat)
    requires i < |reqs| && reqs[i].preemptions == 0 && reqs[i].finalized == 0
    ensures Total(reqs, Gone()) < |reqs|
  {
    var n := |reqs| - 1;
    if i < n {
      SomeoneStays(reqs[..n], i);
    } else {
      TotalAtMost(reqs[..n], Gone(), 1);
    }
  }

  lemma {:induction false} RepeatsBounded(a: Point)
    requires ThrashOk(a) && Tidy(a)
    ensures Total(a.s.reqs, Repeats()) <= |a.s.reqs|
  {
    TotalAtMost(a.s.reqs, Gone(), 1);
    if HasFresh(a.s) {
      var i :| i in a.s.active && a.s.Get(i).preemptions == 0;
      SomeoneStays(a.s.reqs, i);
    }
  }

  /**
   * Bounded thrash, under any victim policy: no two previously preempted requests are ever resident together,
   * and a run with N submissions preempts at most 2N times.
   */
  lemma {:induction false} ThrashOverRuns(m: Model, cfg: Config, s: Sys, events: seq<Event>)
    requires Initial(m, s)
    ensures var s' := Run(m, cfg, s, events);
      && (forall i, j :: i in s'.active && j in s'.active && s'.Get(i).preemptions > 0 && s'.Get(j).preemptions > 0 ==>
           i == j)
      && s'.metrics.preempted <= 2 * |s'.reqs|
  {
    InitialInv(m, cfg, s);
    ThrashClosed(m, cfg);
    CountersClosed(m, cfg);
    CountersStart(s);
    RunKeeps(m, cfg, (a: Point) => ThrashOk(a), s, events);
    RunKeeps(m, cfg, (a: Point) => CountersOk(a), s, events);
    var s' := Run(m, cfg, s, events);
    PointOk(m, cfg, s');
    OkTidy(m, cfg, PointOf(s'));
    PreemptedTotal(PointOf(s'));
  }

  lemma {:induction false} PreemptedTotal(a: Point)
    requires ThrashOk(a) && CountersOk(a) && Tidy(a)
    ensures a.s.metrics.preempted <= 2 * |a.s.reqs|
  {
    RepeatsBounded(a);
    TotalSplit(a.s.reqs);
    TotalAtMost(a.s.reqs, Hit(), 1);
  }
}
