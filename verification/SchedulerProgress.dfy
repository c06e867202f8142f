/** Exactly when an iteration plans something, who is left waiting, and what an idle engine has done. */
module SchedulerProgress {
  import opened Lists
  import opened Transformer
  import opened Packing
  import opened Scheduling
  import opened SchedulerCore
  import opened SchedulerPlan
  import opened SchedulerRun
  import opened SchedulerStreams

  /** Unfinished, with everything it has said taken up by its stream. */
  predicate Ready(r: Req) {
    !r.Terminal() && r.pending == []
  }

  /** An unfinished resident can be planned if and only if nothing of it is undelivered. */
  lemma {:induction false} ReadyIsEligible(m: Model, cfg: Config, s: Sys, i: nat)
    requires Core(m, cfg, s, [], Unfed) && i in s.active && i < |s.reqs| && StreamOk(cfg, s.reqs[i])
    ensures Ready(s.Get(i)) <==> Eligible(s.Get(i)) && s.Get(i).fed < |s.Get(i).Known()|
  {
    hide CacheOk, Places, AllFaithful, Flight;
    assert Settled(s, i);
  }

  lemma {:induction false} PlansHere(m: Model, cfg: Config, s: Sys)
    requires Core(m, cfg, s, [], Unfed) && forall i :: i in s.active ==> i < |s.reqs| && StreamOk(cfg, s.reqs[i])
    ensures BuildPlan(cfg, s) != [] <==> exists i :: i in s.active && Ready(s.Get(i))
  {
    hide Core, StreamOk, BuildPlan, Eligible, Ready, NoDup, TokenCount, ItemMatches;
    CorePlaces(m, cfg, s);
    PlanGuarantees(cfg, s);
    var items := BuildPlan(cfg, s);
    if items != [] {
      FirstPlanned(s, items);
      ReadyIsEligible(m, cfg, s, items[0].id);
      assert Ready(s.Get(items[0].id));
    } else {
      NothingCounted(items);
      forall i | i in s.active ensures !Ready(s.Get(i)) {
        ReadyIsEligible(m, cfg, s, i);
      }
    }
  }

  lemma {:induction false} FirstPlanned(s: Sys, items: seq<BatchItem>)
    requires items != [] && forall k :: 0 <= k < |items| ==> items[k].id in s.active && NextSlice(s, items[k])
    ensures var i := items[0].id; i in s.active && Eligible(s.Get(i)) && s.Get(i).fed < |s.Get(i).Known()|
  {
    assert NextSlice(s, items[0]);
  }

  lemma {:induction false} NothingCounted(items: seq<BatchItem>)
    requires items == []
    ensures TokenCount(items) == 0 && forall i :: i !in ItemIds(items)
  {
  }

  // -- who is left waiting ----------------------------------------------------------------------------

  lemma {:induction false} WaitersLeft(cfg: Config, s: Sys, now: int)
    ensures var t := AdmitWaiting(cfg, s, now);
      t.waiting == [] || |t.active| >= cfg.activeLimit || Blocked(t, t.waiting[0])
    decreases |s.waiting|
  {
    if s.waiting == [] || |s.active| >= cfg.activeLimit || Blocked(s, s.waiting[0]) {
    } else {
      var t := AdmitOne(cfg, s.(waiting := s.waiting[1..]), s.waiting[0], now);
      RemoveFirstShrinks(s.waiting[1..], s.waiting[0]);
      AdmittedWaiting(cfg, s, now);
      hide AdmitOne;
      WaitersLeft(cfg, t, now);
    }
  }

  lemma {:induction false} AdmittedWaiting(cfg: Config, s: Sys, now: int)
    requires s.waiting != []
    ensures |AdmitOne(cfg, s.(waiting := s.waiting[1..]), s.waiting[0], now).waiting| < |s.waiting|
  {
    hide Teardown, FinalRecord, Counted;
    RemoveFirstShrinks(s.waiting[1..], s.waiting[0]);
  }

  // -- over runs -----------------------------------------------------------------------------------------

  lemma {:induction false} StreamsAfter(m: Model, cfg: Config, s0: Sys, events: seq<Event>, now: int)
    requires Initial(m, s0) && Run(m, cfg, s0, events).phase.Idle?
    ensures var t := Step(m, cfg, Run(m, cfg, s0, events), EIterate(now));
      forall i :: 0 <= i < |t.reqs| ==> StreamOk(cfg, t.reqs[i])
  {
    hide Step, StreamOk;
    assert (events + [EIterate(now)])[..|events|] == events;
    var all := events + [EIterate(now)];
    assert Run(m, cfg, s0, all) == Step(m, cfg, Run(m, cfg, s0, events), EIterate(now));
    forall i | 0 <= i < |Run(m, cfg, s0, all).reqs| ensures StreamOk(cfg, Run(m, cfg, s0, all).reqs[i]) {
      StreamsOverRuns(m, cfg, s0, all, i);
    }
  }

  /**
   * Over every run: an iteration plans something if and only if some unfinished resident has nothing undelivered; and
   * a waiter is left only behind a full limit, or because it has been preempted and others are resident.
   */
  lemma {:induction false} PlansExactly(m: Model, cfg: Config, s0: Sys, events: seq<Event>, now: int)
    requires Initial(m, s0) && Run(m, cfg, s0, events).phase.Idle?
    ensures var t := Step(m, cfg, Run(m, cfg, s0, events), EIterate(now));
      && (t.phase.Planned? <==> exists i :: i in t.active && Ready(t.Get(i)))
      && (t.waiting == [] || |t.active| >= cfg.activeLimit || Blocked(t, t.waiting[0]))
  {
    hide Reap, DrainStreams, AdmitWaiting, BuildPlan, Core, StreamOk, Run, Ready, Inv;
    var s := Run(m, cfg, s0, events);
    RunInv(m, cfg, s0, events);
    PhaseParts(m, cfg, s);
    BeforePlanCore(m, cfg, s, now);
    StreamsAfter(m, cfg, s0, events, now);
    var reaped := Reap(cfg, s, now);
    var d := AdmitWaiting(cfg, DrainStreams(cfg, reaped, reaped.active, now), now);
    var t := Step(m, cfg, s, EIterate(now));
    SamePlaces(cfg, s, d, now);
    ActiveRecords(m, cfg, d);
    PlansHere(m, cfg, d);
    WaitersLeft(cfg, DrainStreams(cfg, reaped, reaped.active, now), now);
    SameGets(d, t);
  }

  lemma {:induction false} SamePlaces(cfg: Config, s: Sys, d: Sys, now: int)
    requires var reaped := Reap(cfg, s, now);
      d == AdmitWaiting(cfg, DrainStreams(cfg, reaped, reaped.active, now), now)
    ensures Iterate(cfg, s, now) == d.(phase := if BuildPlan(cfg, d) == [] then Idle else Planned(BuildPlan(cfg, d)))
  {
  }

  lemma {:induction false} SameGets(d: Sys, t: Sys)
    requires t == d.(phase := t.phase)
    ensures forall i :: d.Get(i) == t.Get(i)
    ensures forall i :: Blocked(d, i) <==> Blocked(t, i)
  {
  }

  /**
   * Over every run: when an iteration plans nothing, with a place to give, no client behind and nobody left behind by a
   * failed forward, the engine is empty: every request submitted so far has been finalized.
   */
  lemma {:induction false} IdleIsDone(m: Model, cfg: Config, s0: Sys, events: seq<Event>, now: int)
    requires Initial(m, s0) && Run(m, cfg, s0, events).phase.Idle? && cfg.activeLimit >= 1
    requires var t := Step(m, cfg, Run(m, cfg, s0, events), EIterate(now));
      t.phase.Idle? && forall i :: i in t.active ==> t.Get(i).pending == [] && !t.Get(i).Terminal()
    ensures var t := Step(m, cfg, Run(m, cfg, s0, events), EIterate(now));
      && t.active == [] && t.waiting == []
      && forall i :: 0 <= i < |t.reqs| ==> t.reqs[i].Terminal() && t.reqs[i].finalized == 1
  {
    hide Run, Step, Inv;
    PlansExactly(m, cfg, s0, events, now);
    var s := Run(m, cfg, s0, events);
    var t := Step(m, cfg, s, EIterate(now));
    assert forall i :: i in t.active ==> Ready(t.Get(i));
    NoMembers(t.active);
    RunInv(m, cfg, s0, events);
    StepInv(m, cfg, s, EIterate(now));
    EmptyEngine(m, cfg, t);
  }

  lemma {:induction false} EmptyEngine(m: Model, cfg: Config, t: Sys)
    requires Inv(m, cfg, t) && t.active == [] && t.waiting == []
    ensures forall i :: 0 <= i < |t.reqs| ==> t.reqs[i].Terminal() && t.reqs[i].finalized == 1
  {
    InvParts(m, cfg, t);
  }
}
