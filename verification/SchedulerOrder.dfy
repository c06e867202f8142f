/** In which order requests are planned and preempted, for any policies, and what the policies are shown of them. */
module SchedulerOrder {
  import opened Lists
  import opened Transformer
  import opened Packing
  import opened Scheduling
  import opened SchedulerCore
  import opened SchedulerPlan
  import opened SchedulerRun

  // -- a stable sort ------------------------------------------------------------------------------

  ghost predicate Earlier<T>(s: seq<T>, x: T, y: T) {
    exists p, q :: 0 <= p < q < |s| && s[p] == x && s[q] == y
  }

  /** `x` ranks strictly before `y`, or they tie and `x` comes earlier in `cs`. */
  ghost predicate Precedes(rank: Candidate -> seq<int>, cs: seq<Candidate>, x: Candidate, y: Candidate) {
    TupleLess(rank(x), rank(y)) || (!TupleLess(rank(y), rank(x)) && Earlier(cs, x, y))
  }

  ghost predicate Stable(rank: Candidate -> seq<int>, cs: seq<Candidate>, sorted: seq<Candidate>) {
    forall i, j :: 0 <= i < j < |sorted| ==> Precedes(rank, cs, sorted[i], sorted[j])
  }

  lemma {:induction false} EarlierGrows<T>(s: seq<T>, c: T, x: T, y: T)
    ensures Earlier(s, x, y) ==> Earlier(s + [c], x, y)
    ensures x in s ==> Earlier(s + [c], x, c)
  {
    if Earlier(s, x, y) {
      var p, q :| 0 <= p < q < |s| && s[p] == x && s[q] == y;
      assert (s + [c])[p] == x && (s + [c])[q] == y;
    }
    if x in s {
      var p :| 0 <= p < |s| && s[p] == x;
      assert (s + [c])[p] == x && (s + [c])[|s|] == c;
    }
  }

  lemma {:induction false} StillPrecedes(rank: Candidate -> seq<int>, cs: seq<Candidate>, sorted: seq<Candidate>,
                                         c: Candidate)
    requires Stable(rank, cs, sorted)
    ensures Stable(rank, cs + [c], sorted)
  {
    forall i, j | 0 <= i < j < |sorted| ensures Precedes(rank, cs + [c], sorted[i], sorted[j]) {
      EarlierGrows(cs, c, sorted[i], sorted[j]);
    }
  }

  /** Nobody in a stably sorted list ranks above its last one. */
  lemma {:induction false} NobodyAbove(rank: Candidate -> seq<int>, cs: seq<Candidate>, sorted: seq<Candidate>,
                                       c: Candidate, k: nat)
    requires Stable(rank, cs, sorted) && k < |sorted| && !TupleLess(rank(c), rank(sorted[|sorted| - 1]))
    ensures !TupleLess(rank(c), rank(sorted[k]))
  {
    if k < |sorted| - 1 {
      var last := sorted[|sorted| - 1];
      assert Precedes(rank, cs, sorted[k], last);
      TupleLessAsymmetric(rank(sorted[k]), rank(last));
      NotLessTransitive(rank(sorted[k]), rank(last), rank(c));
    }
  }

  lemma {:induction false} InsertHas(rank: Candidate -> seq<int>, c: Candidate, sorted: seq<Candidate>)
    ensures forall x :: x in Insert(rank, c, sorted) <==> x in sorted || x == c
  {
    if sorted != [] && TupleLess(rank(c), rank(sorted[|sorted| - 1])) {
      assert sorted == sorted[..|sorted| - 1] + [sorted[|sorted| - 1]];
      InsertHas(rank, c, sorted[..|sorted| - 1]);
    }
  }

  lemma {:induction false} StableSnoc(rank: Candidate -> seq<int>, cs: seq<Candidate>, sorted: seq<Candidate>,
                                      c: Candidate)
    requires Stable(rank, cs, sorted) && forall x :: x in sorted ==> Precedes(rank, cs, x, c)
    ensures Stable(rank, cs, sorted + [c])
  {
  }

  /** Insertion puts the last candidate behind everybody it does not outrank. */
  lemma {:induction false} InsertStable(rank: Candidate -> seq<int>, cs: seq<Candidate>, c: Candidate,
                                        sorted: seq<Candidate>)
    requires Stable(rank, cs, sorted) && forall x :: x in sorted ==> x in cs
    ensures Stable(rank, cs + [c], Insert(rank, c, sorted))
  {
    hide Precedes, Stable;
    if sorted == [] || !TupleLess(rank(c), rank(sorted[|sorted| - 1])) {
      StillPrecedes(rank, cs, sorted, c);
      forall x | x in sorted ensures Precedes(rank, cs + [c], x, c) {
        var k :| 0 <= k < |sorted| && sorted[k] == x;
        NobodyAbove(rank, cs, sorted, c, k);
        EarlierGrows(cs, c, x, x);
        TiedOrBelow(rank, cs + [c], x, c);
      }
      StableSnoc(rank, cs + [c], sorted, c);
    } else {
      var n := |sorted| - 1;
      var e := sorted[n];
      assert sorted == sorted[..n] + [e];
      StableInit(rank, cs, sorted);
      InsertStable(rank, cs, c, sorted[..n]);
      StillPrecedes(rank, cs, sorted, c);
      InsertHas(rank, c, sorted[..n]);
      forall x | x in Insert(rank, c, sorted[..n]) ensures Precedes(rank, cs + [c], x, e) {
        LastPrecedes(rank, cs + [c], sorted, c, x);
      }
      StableSnoc(rank, cs + [c], Insert(rank, c, sorted[..n]), e);
    }
  }

  lemma {:induction false} TiedOrBelow(rank: Candidate -> seq<int>, cs: seq<Candidate>, x: Candidate, c: Candidate)
    requires !TupleLess(rank(c), rank(x)) && Earlier(cs, x, c)
    ensures Precedes(rank, cs, x, c)
  {
  }

  lemma {:induction false} StableInit(rank: Candidate -> seq<int>, cs: seq<Candidate>, sorted: seq<Candidate>)
    requires Stable(rank, cs, sorted) && sorted != []
    ensures Stable(rank, cs, sorted[..|sorted| - 1])
  {
  }

  lemma {:induction false} LastPrecedes(rank: Candidate -> seq<int>, cs: seq<Candidate>, sorted: seq<Candidate>,
                                        c: Candidate, x: Candidate)
    requires sorted != [] && Stable(rank, cs, sorted) && TupleLess(rank(c), rank(sorted[|sorted| - 1]))
    requires x == c || x in sorted[..|sorted| - 1]
    ensures Precedes(rank, cs, x, sorted[|sorted| - 1])
  {
    if x != c {
      var k :| 0 <= k < |sorted| - 1 && sorted[k] == x;
    }
  }

  lemma {:induction false} SortedStable(rank: Candidate -> seq<int>, cs: seq<Candidate>)
    ensures Stable(rank, cs, Sorted(rank, cs))
    ensures forall x :: x in Sorted(rank, cs) <==> x in cs
  {
    if cs != [] {
      var n := |cs| - 1;
      assert cs == cs[..n] + [cs[n]];
      SortedStable(rank, cs[..n]);
      InsertStable(rank, cs[..n], cs[n], Sorted(rank, cs[..n]));
      InsertHas(rank, cs[n], Sorted(rank, cs[..n]));
    }
  }

  // -- the plan -------------------------------------------------------------------------------------

  /** What a scheduling policy is shown of request `i`. */
  function Shown(s: Sys, i: nat): Candidate {
    var r := s.Get(i);
    var left := if r.fed < |r.prompt| + |r.generated| then |r.prompt| + |r.generated| - r.fed else 0;
    Candidate(i, r.state.Decoding? && left == 1, left, |r.prompt|, |r.generated|, r.arrival)
  }

  /** Request `i` is ranked before `j`, or as high and admitted earlier. */
  ghost predicate Ahead(cfg: Config, s: Sys, i: nat, j: nat) {
    var a, b := cfg.priority(Shown(s, i)), cfg.priority(Shown(s, j));
    TupleLess(a, b) || (!TupleLess(b, a) && Earlier(s.active, i, j))
  }

  /** Could be planned. */
  predicate Plannable(r: Req) {
    !r.Terminal() && r.pending == [] && r.stalled.None? && r.fed < |r.Known()|
  }

  lemma {:induction false} ShownCandidate(s: Sys, i: nat)
    requires s.Get(i).fed < |s.Get(i).Known()|
    ensures CandidateOf(s, i) == Shown(s, i)
  {
  }

  /** Candidates stand as their requests do. */
  lemma {:induction false} CandidatesInOrder(s: Sys, ids: seq<nat>, x: Candidate, y: Candidate)
    requires Earlier(Candidates(s, ids), x, y)
    ensures Earlier(ids, x.id, y.id)
  {
    if ids != [] {
      var n := |ids| - 1;
      assert ids == ids[..n] + [ids[n]];
      EarlierGrows(ids[..n], ids[n], x.id, y.id);
      CandidatesMembers(s, ids[..n]);
      var cs := Candidates(s, ids);
      var p, q :| 0 <= p < q < |cs| && cs[p] == x && cs[q] == y;
      var init := Candidates(s, ids[..n]);
      if q < |init| {
        assert init[p] == x && init[q] == y;
        CandidatesInOrder(s, ids[..n], x, y);
      } else {
        assert init[p] == x && x in init;
      }
    }
  }

  lemma {:induction false} CandidatesMembers(s: Sys, ids: seq<nat>)
    ensures forall c :: c in Candidates(s, ids) ==> c.id in ids && Plannable(s.Get(c.id)) && c == Shown(s, c.id)
    ensures forall i :: i in ids && Plannable(s.Get(i)) ==> Shown(s, i) in Candidates(s, ids)
  {
    if ids != [] {
      var n := |ids| - 1;
      assert ids == ids[..n] + [ids[n]];
      CandidatesMembers(s, ids[..n]);
      if Plannable(s.Get(ids[n])) {
        ShownCandidate(s, ids[n]);
      }
    }
  }

  lemma {:induction false} PrecedesAhead(cfg: Config, s: Sys, x: Candidate, y: Candidate)
    requires Precedes(cfg.priority, Candidates(s, s.active), x, y) && x == Shown(s, x.id) && y == Shown(s, y.id)
    ensures Ahead(cfg, s, x.id, y.id)
  {
    if !TupleLess(cfg.priority(x), cfg.priority(y)) {
      CandidatesInOrder(s, s.active, x, y);
    }
  }

  /** Whoever is planned is ahead of whoever is planned later or left out. */
  ghost predicate InOrder(cfg: Config, s: Sys, items: seq<BatchItem>) {
    && (forall a, b :: 0 <= a < b < |items| ==> Ahead(cfg, s, items[a].id, items[b].id))
    && (forall a, j :: 0 <= a < |items| && j in s.active && Plannable(s.Get(j)) && j !in ItemIds(items) ==>
          Ahead(cfg, s, items[a].id, j))
  }

  lemma {:induction false} PlanIsSorted(cfg: Config, s: Sys)
    requires NoDup(s.active)
    ensures var items, sorted := BuildPlan(cfg, s), Sorted(cfg.priority, Candidates(s, s.active));
      |items| <= |sorted| && forall k :: 0 <= k < |items| ==> items[k].id == sorted[k].id
  {
    hide Fill, NextSlice, Candidates, Sorted, TokenCount, CandidateOf, Eligible;
    CandidatesFacts(s, s.active);
    var cs := Candidates(s, s.active);
    SortedStable(cfg.priority, cs);
    var sorted := Sorted(cfg.priority, cs);
    forall k | 0 <= k < |sorted| ensures FromRequest(s, s.active, sorted[k]) {
      assert sorted[k] in cs;
      var j :| 0 <= j < |cs| && cs[j] == sorted[k];
    }
    FillFacts(cfg, s, sorted, cfg.budget);
    var items := BuildPlan(cfg, s);
    forall k | 0 <= k < |items| ensures items[k].id == sorted[k].id {
      assert ItemIds(items)[k] == CandidateIds(sorted)[k];
    }
  }

  lemma {:induction false} PlanInOrder(cfg: Config, s: Sys)
    requires NoDup(s.active)
    ensures InOrder(cfg, s, BuildPlan(cfg, s))
  {
    hide Candidates, Sorted, BuildPlan, Ahead, Plannable, Precedes, Shown, NoDup;
    var items, cs := BuildPlan(cfg, s), Candidates(s, s.active);
    var sorted := Sorted(cfg.priority, cs);
    PlanIsSorted(cfg, s);
    SortedStable(cfg.priority, cs);
    CandidatesMembers(s, s.active);
    forall k | 0 <= k < |sorted| ensures sorted[k] == Shown(s, sorted[k].id) {
      assert sorted[k] in cs;
    }
    forall a, b | 0 <= a < b < |items| ensures Ahead(cfg, s, items[a].id, items[b].id) {
      PrecedesAhead(cfg, s, sorted[a], sorted[b]);
    }
    forall a, j | 0 <= a < |items| && j in s.active && Plannable(s.Get(j)) && j !in ItemIds(items)
      ensures Ahead(cfg, s, items[a].id, j) {
      assert Shown(s, j) in sorted;
      var b :| 0 <= b < |sorted| && sorted[b] == Shown(s, j);
      ShownId(s, j);
      NotPlanned(items, sorted, b);
      PrecedesAhead(cfg, s, sorted[a], sorted[b]);
    }
  }

  lemma {:induction false} ShownId(s: Sys, i: nat)
    ensures Shown(s, i).id == i
  {
  }

  lemma {:induction false} NotPlanned(items: seq<BatchItem>, sorted: seq<Candidate>, b: nat)
    requires |items| <= |sorted| && (forall k :: 0 <= k < |items| ==> items[k].id == sorted[k].id)
    requires b < |sorted| && sorted[b].id !in ItemIds(items)
    ensures b >= |items|
  {
    forall k | 0 <= k < |items| ensures sorted[k].id in ItemIds(items) {
      assert ItemIds(items)[k] == sorted[k].id;
    }
  }

  /**
   * The plan of an iteration is in the order of the policy, whatever it is: ranked by what the policy is shown of
   * each request, those ranked alike in the order of their admission; nobody left out is ahead of anybody planned.
   */
  lemma {:induction false} PlannedInOrder(m: Model, cfg: Config, s: Sys, now: int)
    requires Inv(m, cfg, s) && s.phase.Idle?
    ensures var t := Step(m, cfg, s, EIterate(now)); t.phase.Planned? ==> InOrder(cfg, t, t.phase.items)
  {
    hide Core, Inv, Reap, DrainStreams, AdmitWaiting, BuildPlan, InOrder, NoDup;
    PhaseParts(m, cfg, s);
    BeforePlanCore(m, cfg, s, now);
    var reaped := Reap(cfg, s, now);
    var d := AdmitWaiting(cfg, DrainStreams(cfg, reaped, reaped.active, now), now);
    PlacesOf(m, cfg, d, [], Unfed);
    NoDupOf(cfg, d);
    PlanInOrder(cfg, d);
    SameOrder(cfg, d, Step(m, cfg, s, EIterate(now)), BuildPlan(cfg, d));
  }

  lemma {:induction false} NoDupOf(cfg: Config, s: Sys)
    requires Places(cfg, s)
    ensures NoDup(s.active)
  {
  }

  lemma {:induction false} SameOrder(cfg: Config, d: Sys, t: Sys, items: seq<BatchItem>)
    requires InOrder(cfg, d, items) && t == d.(phase := t.phase)
    ensures InOrder(cfg, t, items)
  {
    assert forall i :: t.Get(i) == d.Get(i);
    assert forall i :: Shown(t, i) == Shown(d, i);
    assert forall i, j :: Ahead(cfg, d, i, j) ==> Ahead(cfg, t, i, j);
  }

  // -- the victim ---------------------------------------------------------------------------------------

  /** What a preemption policy is shown of request `i`. */
  function Seen(s: Sys, i: nat): VictimCandidate {
    var r := s.Get(i);
    var blocks := if i in s.cache.tables then |s.cache.tables[i]| else 0;
    VictimCandidate(i, blocks * s.cache.size, r.fed, |r.generated|, r.arrival)
  }

  /** `v` is the first among the unfinished residents ranked highest. */
  ghost predicate FirstHighest(cfg: Config, s: Sys, v: nat) {
    v in s.active && !s.Get(v).Terminal() && forall i :: i in s.active && !s.Get(i).Terminal() && i != v ==>
      var a, b := cfg.victimPriority(Seen(s, i)), cfg.victimPriority(Seen(s, v));
      TupleLess(a, b) || (!TupleLess(b, a) && Earlier(s.active, v, i))
  }

  /** The unfinished residents stand as they do among all. */
  lemma {:induction false} LivingInOrder(s: Sys, ids: seq<nat>, x: nat, y: nat)
    requires Earlier(Living(s, ids), x, y)
    ensures Earlier(ids, x, y)
  {
    if ids != [] {
      var n := |ids| - 1;
      assert ids == ids[..n] + [ids[n]];
      EarlierGrows(ids[..n], ids[n], x, y);
      LivingFacts(s, ids[..n]);
      var l, init := Living(s, ids), Living(s, ids[..n]);
      var p, q :| 0 <= p < q < |l| && l[p] == x && l[q] == y;
      assert init[p] == x && x in init;
      if q < |init| {
        assert init[p] == x && init[q] == y;
        LivingInOrder(s, ids[..n], x, y);
      }
    }
  }

  lemma {:induction false} VictimFirst(cfg: Config, s: Sys)
    requires CanPreempt(s)
    ensures FirstHighest(cfg, s, Victim(cfg, s, Living(s, s.active)))
  {
    hide Victim, Living, TupleLess;
    var ids := Living(s, s.active);
    LivingFacts(s, s.active);
    var k := VictimHighest(cfg, s, ids);
    var v := ids[k];
    assert v in ids;
    forall i | i in s.active && !s.Get(i).Terminal() && i != v
      ensures var a, b := cfg.victimPriority(Seen(s, i)), cfg.victimPriority(Seen(s, v));
        TupleLess(a, b) || (!TupleLess(b, a) && Earlier(s.active, v, i)) {
      assert i in ids;
      var j :| 0 <= j < |ids| && ids[j] == i;
      SeenRank(cfg, s, i);
      SeenRank(cfg, s, v);
      if k < j {
        assert Earlier(ids, v, i);
        LivingInOrder(s, s.active, v, i);
      }
    }
  }

  lemma {:induction false} SeenRank(cfg: Config, s: Sys, i: nat)
    ensures VictimRank(cfg, s, i) == cfg.victimPriority(Seen(s, i))
  {
  }
}
