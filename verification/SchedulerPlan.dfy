/** What the plan builder guarantees: for any policy, and for the decode-first one. */
module SchedulerPlan {
  import opened Lists
  import opened Transformer
  import opened Packing
  import opened Padding
  import opened Runner
  import opened Scheduling
  import opened SchedulerCore

  function CandidateIds(cs: seq<Candidate>): seq<nat> {
    seq(|cs|, k requires 0 <= k < |cs| => cs[k].id)
  }

  /** The candidate describes a request that is listed, eligible and not fully fed. */
  ghost predicate FromRequest(s: Sys, ids: seq<nat>, c: Candidate) {
    && c.id in ids && Eligible(s.Get(c.id)) && s.Get(c.id).fed < |s.Get(c.id).Known()|
    && c == CandidateOf(s, c.id)
  }

  lemma {:induction false} CandidatesFacts(s: Sys, ids: seq<nat>)
    requires NoDup(ids)
    ensures var cs := Candidates(s, ids);
      && NoDup(CandidateIds(cs)) && |cs| <= |ids|
      && (forall k :: 0 <= k < |cs| ==> FromRequest(s, ids, cs[k]))
      && (forall i :: i in ids && Eligible(s.Get(i)) && s.Get(i).fed < |s.Get(i).Known()| ==> CandidateOf(s, i) in cs)
  {
    if ids != [] {
      var n := |ids| - 1;
      assert ids == ids[..n] + [ids[n]];
      NoDupConcat(ids[..n], [ids[n]]);
      CandidatesFacts(s, ids[..n]);
      hide NoDup, CandidateOf, Eligible;
      var cs := Candidates(s, ids[..n]);
      forall k | 0 <= k < |cs| ensures FromRequest(s, ids, cs[k]) && cs[k].id in ids[..n] {
        assert FromRequest(s, ids[..n], cs[k]);
      }
      if Eligible(s.Get(ids[n])) && s.Get(ids[n]).fed < |s.Get(ids[n]).Known()| {
        CandidateJoins(cs, CandidateOf(s, ids[n]), ids[n]);
      }
    }
  }

  lemma {:induction false} CandidateJoins(cs: seq<Candidate>, c: Candidate, id: nat)
    requires NoDup(CandidateIds(cs)) && c.id == id && forall k :: 0 <= k < |cs| ==> cs[k].id != id
    ensures NoDup(CandidateIds(cs + [c]))
  {
    assert CandidateIds(cs + [c]) == CandidateIds(cs) + [id];
    NoDupConcat(CandidateIds(cs), [id]);
  }

  // -- the stable sort ------------------------------------------------------------------------

  lemma {:induction false} TupleLessAsymmetric(a: seq<int>, b: seq<int>)
    ensures !(TupleLess(a, b) && TupleLess(b, a))
  {
    if a != [] && b != [] && a[0] == b[0] {
      TupleLessAsymmetric(a[1..], b[1..]);
    }
  }

  ghost predicate Ordered(rank: Candidate -> seq<int>, cs: seq<Candidate>) {
    forall k :: 0 < k < |cs| ==> !TupleLess(rank(cs[k]), rank(cs[k - 1]))
  }

  lemma {:induction false} InsertOrdered(rank: Candidate -> seq<int>, c: Candidate, cs: seq<Candidate>)
    requires Ordered(rank, cs)
    ensures Ordered(rank, Insert(rank, c, cs))
    ensures var r := Insert(rank, c, cs);
      |r| > 0 && (r[|r| - 1] == c || (cs != [] && r[|r| - 1] == cs[|cs| - 1]))
  {
    if cs != [] && TupleLess(rank(c), rank(cs[|cs| - 1])) {
      InsertOrdered(rank, c, cs[..|cs| - 1]);
      TupleLessAsymmetric(rank(c), rank(cs[|cs| - 1]));
    }
  }

  lemma {:induction false} InsertPermutes(rank: Candidate -> seq<int>, c: Candidate, cs: seq<Candidate>)
    ensures multiset(Insert(rank, c, cs)) == multiset(cs) + multiset{c}
  {
    if cs != [] && TupleLess(rank(c), rank(cs[|cs| - 1])) {
      assert cs == cs[..|cs| - 1] + [cs[|cs| - 1]];
      InsertPermutes(rank, c, cs[..|cs| - 1]);
    }
  }

  /** The sort is a permutation, in rank order. */
  lemma {:induction false} SortedFacts(rank: Candidate -> seq<int>, cs: seq<Candidate>)
    ensures Ordered(rank, Sorted(rank, cs))
    ensures multiset(Sorted(rank, cs)) == multiset(cs) && |Sorted(rank, cs)| == |cs|
  {
    if cs != [] {
      var n := |cs| - 1;
      assert cs == cs[..n] + [cs[n]];
      SortedFacts(rank, cs[..n]);
      InsertOrdered(rank, cs[n], Sorted(rank, cs[..n]));
      InsertPermutes(rank, cs[n], Sorted(rank, cs[..n]));
      assert |multiset(Sorted(rank, cs))| == |multiset(cs)|;
    }
  }

  lemma {:induction false} NotLessTransitive(a: seq<int>, b: seq<int>, c: seq<int>)
    requires !TupleLess(b, a) && !TupleLess(c, b)
    ensures !TupleLess(c, a)
  {
    if a != [] && a[0] == b[0] == c[0] {
      NotLessTransitive(a[1..], b[1..], c[1..]);
    }
  }

  /** Nobody in a sorted list outranks anybody before. */
  lemma {:induction false} OrderedApart(rank: Candidate -> seq<int>, cs: seq<Candidate>, i: nat, j: nat)
    requires Ordered(rank, cs) && i < j < |cs|
    ensures !TupleLess(rank(cs[j]), rank(cs[i]))
    decreases j
  {
    if i + 1 < j {
      OrderedApart(rank, cs, i, j - 1);
      NotLessTransitive(rank(cs[i]), rank(cs[j - 1]), rank(cs[j]));
    }
  }

  /** The victim is the first of the highest-ranked: nobody ranks above it, everybody before it ranks below. */
  lemma {:induction false} VictimHighest(cfg: Config, s: Sys, ids: seq<nat>) returns (k: nat)
    requires ids != []
    ensures k < |ids| && Victim(cfg, s, ids) == ids[k]
    ensures forall i :: 0 <= i < |ids| ==> !TupleLess(VictimRank(cfg, s, ids[k]), VictimRank(cfg, s, ids[i]))
    ensures forall i :: 0 <= i < k ==> TupleLess(VictimRank(cfg, s, ids[i]), VictimRank(cfg, s, ids[k]))
  {
    hide VictimRank;
    var n := |ids| - 1;
    if n == 0 {
      k := 0;
      TupleLessAsymmetric(VictimRank(cfg, s, ids[0]), VictimRank(cfg, s, ids[0]));
    } else {
      k := VictimHighest(cfg, s, ids[..n]);
      var best, last := VictimRank(cfg, s, ids[k]), VictimRank(cfg, s, ids[n]);
      if TupleLess(best, last) {
        TupleLessAsymmetric(best, last);
        TupleLessAsymmetric(last, last);
        forall i | 0 <= i < n ensures TupleLess(VictimRank(cfg, s, ids[i]), last) {
          LessTransitive(VictimRank(cfg, s, ids[i]), best, last);
        }
        forall i | 0 <= i < n ensures !TupleLess(last, VictimRank(cfg, s, ids[i])) {
          TupleLessAsymmetric(last, VictimRank(cfg, s, ids[i]));
        }
        k := n;
      }
    }
  }

  /** Production policy: no unfinished resident holds more slots than the victim. */
  lemma {:induction false} LargestIsVictim(cfg: Config, s: Sys, i: nat)
    requires cfg.victimPriority == LargestSequence && CanPreempt(s) && i in Living(s, s.active)
    ensures s.cache.AllocatedTokens(i) <= s.cache.AllocatedTokens(Victim(cfg, s, Living(s, s.active)))
  {
    hide Victim, Living;
    var ids := Living(s, s.active);
    var k := VictimHighest(cfg, s, ids);
    var j :| 0 <= j < |ids| && ids[j] == i;
    assert !TupleLess(VictimRank(cfg, s, ids[k]), VictimRank(cfg, s, ids[j]));
  }

  /**
   * Its ties: among those holding as many slots nobody has more fed tokens than the victim; among those also as
   * far on, nobody arrived later; and whoever ties in all three stands behind it in the engine.
   */
  lemma {:induction false} VictimTies(cfg: Config, s: Sys, i: nat) returns (k: nat, v: nat)
    requires cfg.victimPriority == LargestSequence && CanPreempt(s) && i in Living(s, s.active)
    ensures var ids := Living(s, s.active);
      var r, w := s.Get(i), s.Get(v);
      && v == Victim(cfg, s, ids) && k < |ids| && ids[k] == v
      && s.cache.AllocatedTokens(i) <= s.cache.AllocatedTokens(v)
      && (s.cache.AllocatedTokens(i) == s.cache.AllocatedTokens(v) ==>
            r.fed <= w.fed && (r.fed == w.fed ==>
              r.arrival <= w.arrival && (r.arrival == w.arrival ==> i !in ids[..k])))
  {
    hide Victim, Living;
    var ids := Living(s, s.active);
    k := VictimHighest(cfg, s, ids);
    v := ids[k];
    var j :| 0 <= j < |ids| && ids[j] == i;
    TripleLess(VictimRank(cfg, s, v), VictimRank(cfg, s, i));
    TripleLess(VictimRank(cfg, s, i), VictimRank(cfg, s, v));
    assert !TupleLess(VictimRank(cfg, s, ids[k]), VictimRank(cfg, s, ids[j]));
  }

  lemma {:induction false} TripleLess(a: seq<int>, b: seq<int>)
    requires |a| == |b| == 3
    ensures TupleLess(a, b) <==> a[0] < b[0] || (a[0] == b[0] && (a[1] < b[1] || (a[1] == b[1] && a[2] < b[2])))
  {
    assert TupleLess(a, b) <==> a[0] < b[0] || (a[0] == b[0] && TupleLess(a[1..], b[1..]));
    assert TupleLess(a[1..], b[1..]) <==> a[1] < b[1] || (a[1] == b[1] && TupleLess(a[2..], b[2..]));
    assert TupleLess(a[2..], b[2..]) <==> a[2] < b[2];
  }

  /** Not above and then below is below. */
  lemma {:induction false} LessTransitive(a: seq<int>, b: seq<int>, c: seq<int>)
    requires !TupleLess(b, a) && TupleLess(b, c)
    ensures TupleLess(a, c)
  {
    if a != [] && b != [] && a[0] == b[0] == c[0] {
      LessTransitive(a[1..], b[1..], c[1..]);
    }
  }

  lemma {:induction false} InsertIds(rank: Candidate -> seq<int>, c: Candidate, cs: seq<Candidate>)
    requires NoDup(CandidateIds(cs)) && c.id !in CandidateIds(cs)
    ensures NoDup(CandidateIds(Insert(rank, c, cs)))
    ensures forall i :: i in CandidateIds(Insert(rank, c, cs)) <==> i in CandidateIds(cs) || i == c.id
    ensures forall x :: x in Insert(rank, c, cs) <==> x in cs || x == c
  {
    if cs == [] || !TupleLess(rank(c), rank(cs[|cs| - 1])) {
      assert CandidateIds(cs + [c]) == CandidateIds(cs) + [c.id];
      NoDupConcat(CandidateIds(cs), [c.id]);
    } else {
      var n := |cs| - 1;
      assert cs == cs[..n] + [cs[n]];
      assert CandidateIds(cs) == CandidateIds(cs[..n]) + [cs[n].id];
      NoDupConcat(CandidateIds(cs[..n]), [cs[n].id]);
      InsertIds(rank, c, cs[..n]);
      var r := Insert(rank, c, cs[..n]);
      assert CandidateIds(r + [cs[n]]) == CandidateIds(r) + [cs[n].id];
      NoDupConcat(CandidateIds(r), [cs[n].id]);
    }
  }

  lemma {:induction false} SortedIds(rank: Candidate -> seq<int>, cs: seq<Candidate>)
    requires NoDup(CandidateIds(cs))
    ensures NoDup(CandidateIds(Sorted(rank, cs)))
    ensures forall i :: i in CandidateIds(Sorted(rank, cs)) <==> i in CandidateIds(cs)
    ensures forall x :: x in Sorted(rank, cs) <==> x in cs
  {
    if cs != [] {
      var n := |cs| - 1;
      assert cs == cs[..n] + [cs[n]];
      assert CandidateIds(cs) == CandidateIds(cs[..n]) + [cs[n].id];
      NoDupConcat(CandidateIds(cs[..n]), [cs[n].id]);
      SortedIds(rank, cs[..n]);
      InsertIds(rank, cs[n], Sorted(rank, cs[..n]));
    }
  }

  // -- filling the budget ------------------------------------------------------------------------

  /** The item is the request's next contiguous tokens, sampled exactly when it reaches the end. */
  ghost predicate NextSlice(s: Sys, item: BatchItem) {
    && Eligible(s.Get(item.id)) && ItemMatches(s, item) && item.start == s.Get(item.id).fed
    && (item.isDecode <==> |item.tokens| == 1 && item.start >= |s.Get(item.id).prompt|)
  }

  ghost predicate CandidatesOk(s: Sys, cs: seq<Candidate>) {
    forall k :: 0 <= k < |cs| ==>
      && Eligible(s.Get(cs[k].id)) && s.Get(cs[k].id).fed < |s.Get(cs[k].id).Known()| &&
           cs[k] == CandidateOf(s, cs[k].id)
  }

  lemma {:induction false} TokenCountCons(item: BatchItem, items: seq<BatchItem>)
    ensures TokenCount([item] + items) == |item.tokens| + TokenCount(items)
  {
    var all := [item] + items;
    if items == [] {
      assert all[..0] == [];
    } else {
      assert all[..|all| - 1] == [item] + items[..|items| - 1];
      TokenCountCons(item, items[..|items| - 1]);
    }
  }

  lemma {:induction false} ItemForFacts(cfg: Config, s: Sys, c: Candidate, budget: Positive)
    requires Eligible(s.Get(c.id)) && s.Get(c.id).fed < |s.Get(c.id).Known()|
    ensures var item := ItemFor(cfg, s, c, budget); NextSlice(s, item) && item.id == c.id && |item.tokens| <= budget
  {
  }

  /**
   * Within budget, each candidate at most once, each slice the next tokens; leftover budget means nobody is left
   * out.
   */
  ghost predicate Filled(s: Sys, cs: seq<Candidate>, budget: int, items: seq<BatchItem>) {
    && (budget >= 0 ==> TokenCount(items) <= budget)
    && |items| <= |cs| && ItemIds(items) == CandidateIds(cs)[..|items|]
    && (forall k :: 0 <= k < |items| ==> NextSlice(s, items[k]))
    && (TokenCount(items) < budget ==> |items| == |cs|)
  }

  lemma {:induction false} FilledCons(s: Sys, cs: seq<Candidate>, budget: nat, item: BatchItem, rest: seq<BatchItem>)
    requires cs != [] && |item.tokens| <= budget && item.id == cs[0].id && NextSlice(s, item)
    requires Filled(s, cs[1..], budget - |item.tokens|, rest)
    ensures Filled(s, cs, budget, [item] + rest)
  {
    hide NextSlice, TokenCount;
    TokenCountCons(item, rest);
    assert CandidateIds(cs) == [cs[0].id] + CandidateIds(cs[1..]);
    assert ItemIds([item] + rest) == [item.id] + ItemIds(rest);
    assert ([cs[0].id] + CandidateIds(cs[1..]))[..|rest| + 1] == [cs[0].id] + CandidateIds(cs[1..])[..|rest|];
  }

  lemma {:induction false} FillTurnOf(cfg: Config, s: Sys, cs: seq<Candidate>, budget: Positive)
    requires cs != [] && s.Get(cs[0].id).fed < |s.Get(cs[0].id).Known()|
    ensures var item := ItemFor(cfg, s, cs[0], budget);
      Fill(cfg, s, cs, budget) == [item] + Fill(cfg, s, cs[1..], budget - |item.tokens|)
  {
  }

  lemma {:induction false} FilledNone(s: Sys, cs: seq<Candidate>, budget: int)
    requires cs == [] || budget <= 0
    ensures Filled(s, cs, budget, [])
  {
    assert CandidateIds(cs)[..0] == [];
  }

  lemma {:induction false} FillFacts(cfg: Config, s: Sys, cs: seq<Candidate>, budget: int)
    requires CandidatesOk(s, cs)
    ensures Filled(s, cs, budget, Fill(cfg, s, cs, budget))
    decreases |cs|
  {
    hide NextSlice, Filled, ItemFor, CandidateOf, Eligible;
    if cs == [] || budget <= 0 {
      FilledNone(s, cs, budget);
    } else {
      FillTurnOf(cfg, s, cs, budget);
      hide Fill;
      var item := ItemFor(cfg, s, cs[0], budget);
      ItemForFacts(cfg, s, cs[0], budget);
      FillFacts(cfg, s, cs[1..], budget - |item.tokens|);
      FilledCons(s, cs, budget, item, Fill(cfg, s, cs[1..], budget - |item.tokens|));
    }
  }

  lemma {:induction false} NoDupTake(s: seq<nat>, n: nat)
    requires NoDup(s) && n <= |s|
    ensures NoDup(s[..n])
  {
  }

  /**
   * For any priority: the plan is within budget, names each request at most once, and gives each the next
   * contiguous slice of its own tokens; if budget is left over, every eligible request is in the plan.
   */
  lemma {:induction false} PlanGuarantees(cfg: Config, s: Sys)
    requires NoDup(s.active)
    ensures var items := BuildPlan(cfg, s);
      && TokenCount(items) <= cfg.budget && NoDup(ItemIds(items))
      && (forall k :: 0 <= k < |items| ==> items[k].id in s.active && NextSlice(s, items[k]))
      && (TokenCount(items) < cfg.budget ==>
            forall i :: i in s.active && Eligible(s.Get(i)) && s.Get(i).fed < |s.Get(i).Known()| ==>
              i in ItemIds(items))
  {
    hide Fill, NextSlice, Candidates, Sorted, TokenCount;
    CandidatesFacts(s, s.active);
    var cs := Candidates(s, s.active);
    SortedIds(cfg.priority, cs);
    SortedFacts(cfg.priority, cs);
    var sorted := Sorted(cfg.priority, cs);
    forall k | 0 <= k < |sorted| ensures FromRequest(s, s.active, sorted[k]) {
      assert sorted[k] in cs;
      var j :| 0 <= j < |cs| && cs[j] == sorted[k];
    }
    FillFacts(cfg, s, sorted, cfg.budget);
    var items := BuildPlan(cfg, s);
    NoDupTake(CandidateIds(sorted), |items|);
    forall k | 0 <= k < |items| ensures items[k].id in s.active {
      assert ItemIds(items)[k] == CandidateIds(sorted)[k];
    }
    if |items| == |sorted| {
      assert CandidateIds(sorted)[..|items|] == CandidateIds(sorted);
      forall i | i in s.active && Eligible(s.Get(i)) && s.Get(i).fed < |s.Get(i).Known()| ensures i in ItemIds(items) {
        assert CandidateOf(s, i) in sorted;
        var k :| 0 <= k < |sorted| && sorted[k] == CandidateOf(s, i);
        assert CandidateIds(sorted)[k] == i;
      }
    }
  }

  /** No slice is shorter than it must be: it reaches the end, is a full chunk, or takes the last of the budget. */
  ghost predicate Maximal(cfg: Config, budget: int, items: seq<BatchItem>) {
    forall k :: 0 <= k < |items| ==>
      && |items[k].tokens| <= cfg.chunk
      && (items[k].sample || |items[k].tokens| == cfg.chunk || TokenCount(items[..k + 1]) == budget)
  }

  lemma {:induction false} MaximalCons(cfg: Config, budget: int, item: BatchItem, rest: seq<BatchItem>)
    requires |item.tokens| <= cfg.chunk && (item.sample || |item.tokens| == cfg.chunk || |item.tokens| == budget)
    requires Maximal(cfg, budget - |item.tokens|, rest)
    ensures Maximal(cfg, budget, [item] + rest)
  {
    var all := [item] + rest;
    forall k | 0 <= k < |all|
      ensures |all[k].tokens| <= cfg.chunk
      ensures all[k].sample || |all[k].tokens| == cfg.chunk || TokenCount(all[..k + 1]) == budget {
      if k == 0 {
        assert all[..1] == [item] + [];
        TokenCountCons(item, []);
      } else {
        assert all[..k + 1] == [item] + rest[..k] && all[k] == rest[k - 1] && rest[..k] == rest[..k - 1 + 1];
        TokenCountCons(item, rest[..k]);
      }
    }
  }

  lemma {:induction false} SliceMaximal(cfg: Config, s: Sys, c: Candidate, budget: Positive)
    requires s.Get(c.id).fed < |s.Get(c.id).Known()| && c == CandidateOf(s, c.id)
    ensures var item := ItemFor(cfg, s, c, budget);
      |item.tokens| <= cfg.chunk && (item.sample || |item.tokens| == cfg.chunk || |item.tokens| == budget)
  {
  }

  lemma {:induction false} FillMaximal(cfg: Config, s: Sys, cs: seq<Candidate>, budget: int)
    requires CandidatesOk(s, cs)
    ensures Maximal(cfg, budget, Fill(cfg, s, cs, budget))
    decreases |cs|
  {
    hide ItemFor, CandidateOf, Eligible, TokenCount;
    if cs != [] && budget > 0 {
      FillTurnOf(cfg, s, cs, budget);
      SliceMaximal(cfg, s, cs[0], budget);
      var item := ItemFor(cfg, s, cs[0], budget);
      FillMaximal(cfg, s, cs[1..], budget - |item.tokens|);
      hide Fill, Maximal;
      MaximalCons(cfg, budget, item, Fill(cfg, s, cs[1..], budget - |item.tokens|));
    }
  }

  /** Every slice of a plan is as long as the chunk size, the request and the budget left allow. */
  lemma {:induction false} SlicesMaximal(cfg: Config, s: Sys)
    requires NoDup(s.active)
    ensures Maximal(cfg, cfg.budget, BuildPlan(cfg, s))
  {
    CandidatesFacts(s, s.active);
    var cs := Candidates(s, s.active);
    SortedIds(cfg.priority, cs);
    SortedFacts(cfg.priority, cs);
    var sorted := Sorted(cfg.priority, cs);
    forall k | 0 <= k < |sorted| ensures FromRequest(s, s.active, sorted[k]) {
      assert sorted[k] in cs;
      var j :| 0 <= j < |cs| && cs[j] == sorted[k];
    }
    FillMaximal(cfg, s, sorted, cfg.budget);
  }

  // -- decode-only plans ----------------------------------------------------------------------------

  /** With two or more tokens per chunk and budget to spare, a one-token slice reaches the end. */
  lemma {:induction false} OneTokenSamples(cfg: Config, s: Sys, c: Candidate, budget: Positive)
    requires s.Get(c.id).fed < |s.Get(c.id).Known()| && c == CandidateOf(s, c.id)
    requires cfg.chunk >= 2 && budget >= 2 && ItemFor(cfg, s, c, budget).isDecode
    ensures ItemFor(cfg, s, c, budget).sample && |ItemFor(cfg, s, c, budget).tokens| == 1
  {
  }

  ghost predicate AllSample(items: seq<BatchItem>) {
    forall k :: 0 <= k < |items| ==> items[k].sample && |items[k].tokens| == 1
  }

  lemma {:induction false} DecodeSampleCons(item: BatchItem, rest: seq<BatchItem>)
    ensures AllDecode([item] + rest) <==> item.isDecode && AllDecode(rest)
    ensures AllSample([item] + rest) <==> item.sample && |item.tokens| == 1 && AllSample(rest)
  {
    var all := [item] + rest;
    assert all[0] == item && item in all;
    assert forall k :: 0 <= k < |rest| ==> rest[k] == all[k + 1];
  }

  lemma {:induction false} FillAllDecode(cfg: Config, s: Sys, cs: seq<Candidate>, budget: int)
    requires CandidatesOk(s, cs) && cfg.chunk >= 2 && budget > |cs|
    requires AllDecode(Fill(cfg, s, cs, budget))
    ensures AllSample(Fill(cfg, s, cs, budget))
    decreases |cs|
  {
    hide ItemFor, AllDecode, Eligible, CandidateOf;
    if cs != [] {
      var item := ItemFor(cfg, s, cs[0], budget);
      var rest := Fill(cfg, s, cs[1..], budget - |item.tokens|);
      DecodeSampleCons(item, rest);
      hide AllSample;
      OneTokenSamples(cfg, s, cs[0], budget);
      FillAllDecode(cfg, s, cs[1..], budget - 1);
    }
  }

  /**
   * With two or more tokens per chunk and budget to spare every item of an all-decode plan samples, whatever the
   * priority.
   */
  lemma {:induction false} DecodePlansSample(cfg: Config, s: Sys)
    requires NoDup(s.active) && cfg.chunk >= 2 && cfg.budget > |s.active|
    requires AllDecode(BuildPlan(cfg, s))
    ensures AllSample(BuildPlan(cfg, s))
  {
    hide NoDup, Fill, Candidates, Sorted, AllDecode, AllSample, Ordered, CandidateOf, Eligible;
    CandidatesFacts(s, s.active);
    var cs := Candidates(s, s.active);
    SortedIds(cfg.priority, cs);
    SortedFacts(cfg.priority, cs);
    var sorted := Sorted(cfg.priority, cs);
    forall k | 0 <= k < |sorted| ensures FromRequest(s, s.active, sorted[k]) {
      assert sorted[k] in cs;
      var j :| 0 <= j < |cs| && cs[j] == sorted[k];
    }
    FillAllDecode(cfg, s, sorted, cfg.budget);
  }

  // -- the production policy ---------------------------------------------------------------------------

  function Decodes(cs: seq<Candidate>): seq<Candidate> {
    if cs == [] then [] else
    var n := |cs| - 1;
    if cs[n].decode then Decodes(cs[..n]) + [cs[n]] else Decodes(cs[..n])
  }

  function Prefills(cs: seq<Candidate>): seq<Candidate> {
    if cs == [] then [] else
    var n := |cs| - 1;
    if cs[n].decode then Prefills(cs[..n]) else Prefills(cs[..n]) + [cs[n]]
  }

  lemma {:induction false} SplitFacts(cs: seq<Candidate>)
    ensures forall k :: 0 <= k < |Decodes(cs)| ==> Decodes(cs)[k].decode && Decodes(cs)[k] in cs
    ensures forall k :: 0 <= k < |Prefills(cs)| ==> !Prefills(cs)[k].decode && Prefills(cs)[k] in cs
    ensures forall c :: c in cs ==> c in Decodes(cs) || c in Prefills(cs)
  {
    if cs != [] {
      SplitFacts(cs[..|cs| - 1]);
      assert cs == cs[..|cs| - 1] + [cs[|cs| - 1]];
    }
  }

  lemma {:induction false} DecodeFirstOrder(a: Candidate, b: Candidate)
    ensures TupleLess(DecodeFirst(a), DecodeFirst(b)) <==> a.decode && !b.decode
  {
    assert [0][1..] == [] && [1][1..] == [];
  }

  /** Decode-first sorting keeps arrival order within both groups. */
  lemma {:induction false} DecodeFirstSort(cs: seq<Candidate>)
    ensures Sorted(DecodeFirst, cs) == Decodes(cs) + Prefills(cs)
  {
    if cs != [] {
      var n := |cs| - 1;
      DecodeFirstSort(cs[..n]);
      SplitFacts(cs[..n]);
      InsertDecodeFirst(cs[n], Decodes(cs[..n]), Prefills(cs[..n]));
    }
  }

  lemma {:induction false} InsertDecodeFirst(c: Candidate, d: seq<Candidate>, p: seq<Candidate>)
    requires (forall k :: 0 <= k < |d| ==> d[k].decode) && (forall k :: 0 <= k < |p| ==> !p[k].decode)
    ensures Insert(DecodeFirst, c, d + p) == if c.decode then (d + [c]) + p else d + (p + [c])
    decreases |p|
  {
    if d + p != [] {
      DecodeFirstOrder(c, (d + p)[|d + p| - 1]);
    }
    if c.decode && p != [] {
      var n := |p| - 1;
      assert (d + p)[..|d + p| - 1] == d + p[..n];
      InsertDecodeFirst(c, d, p[..n]);
      assert ((d + [c]) + p[..n]) + [p[n]] == (d + [c]) + p;
    } else {
      assert (d + p) + [c] == d + (p + [c]);
      assert p == [] ==> d + [c] == (d + [c]) + p && d + p == d;
    }
  }

  /** One sampled token for each decoding candidate. */
  function DecodeItems(s: Sys, d: seq<Candidate>): seq<BatchItem> {
    if d == [] then [] else [DecodeItem(s, d[0])] + DecodeItems(s, d[1..])
  }

  function DecodeItem(s: Sys, c: Candidate): BatchItem {
    var r := s.Get(c.id);
    BatchItem(c.id, [if r.Known() == [] then 0 else r.Known()[|r.Known()| - 1]], r.fed, true, r.fed >= |r.prompt|)
  }

  lemma {:induction false} DecodeItemFor(cfg: Config, s: Sys, c: Candidate, budget: Positive)
    requires c.decode && s.Get(c.id).fed < |s.Get(c.id).Known()| && c == CandidateOf(s, c.id)
    ensures ItemFor(cfg, s, c, budget) == DecodeItem(s, c)
  {
    var r := s.Get(c.id);
    assert r.Known()[r.fed..r.fed + 1] == [r.Known()[|r.Known()| - 1]];
  }

  lemma {:induction false} FillDecodes(cfg: Config, s: Sys, d: seq<Candidate>, p: seq<Candidate>, budget: int)
    requires CandidatesOk(s, d) && (forall k :: 0 <= k < |d| ==> d[k].decode) && budget >= |d|
    ensures Fill(cfg, s, d + p, budget) == DecodeItems(s, d) + Fill(cfg, s, p, budget - |d|)
    decreases |d|
  {
    hide ItemFor;
    if d == [] {
      assert d + p == p;
      assert DecodeItems(s, d) + Fill(cfg, s, p, budget) == Fill(cfg, s, p, budget);
    } else {
      assert (d + p)[1..] == d[1..] + p && (d + p)[0] == d[0];
      FillDecodes(cfg, s, d[1..], p, budget - 1);
      DecodeItemFor(cfg, s, d[0], budget);
      assert [DecodeItem(s, d[0])] + (DecodeItems(s, d[1..]) + Fill(cfg, s, p, budget - |d|)) ==
             DecodeItems(s, d) + Fill(cfg, s, p, budget - |d|);
    }
  }

  /** Decoding, with nothing undelivered and one token left to feed. */
  predicate LastToken(r: Req) {
    Eligible(r) && r.state.Decoding? && r.fed + 1 == |r.Known()|
  }

  /**
   * Production policy with a budget no smaller than the active limit: the plan opens with one sampled token
   * for every eligible decoding request, and the rest of the budget goes to prefills in `active` order.
   */
  lemma {:induction false} DecodeFirstPlan(cfg: Config, s: Sys)
    requires NoDup(s.active) && cfg.priority == DecodeFirst && cfg.budget >= |s.active|
    ensures var cs := Candidates(s, s.active);
      && |Decodes(cs)| <= cfg.budget
      && BuildPlan(cfg, s) == DecodeItems(s, Decodes(cs)) + Fill(cfg, s, Prefills(cs), cfg.budget - |Decodes(cs)|)
      && forall i :: i in s.active && LastToken(s.Get(i)) ==> CandidateOf(s, i) in Decodes(cs)
  {
    hide Fill, DecodeItems, Candidates, Sorted, Decodes, Prefills;
    var cs := Candidates(s, s.active);
    CandidatesFacts(s, s.active);
    DecodeFirstSort(cs);
    SplitLength(cs);
    DecodesOk(s, cs);
    FillDecodes(cfg, s, Decodes(cs), Prefills(cs), cfg.budget);
    forall i | i in s.active && LastToken(s.Get(i))
      ensures CandidateOf(s, i) in Decodes(cs) {
      DecodesHave(cs, CandidateOf(s, i));
    }
  }

  lemma {:induction false} DecodesOk(s: Sys, cs: seq<Candidate>)
    requires forall k :: 0 <= k < |cs| ==> FromRequest(s, s.active, cs[k])
    ensures CandidatesOk(s, Decodes(cs)) && forall k :: 0 <= k < |Decodes(cs)| ==> Decodes(cs)[k].decode
  {
    SplitFacts(cs);
    var d := Decodes(cs);
    forall k | 0 <= k < |d| ensures FromRequest(s, s.active, d[k]) {
      assert d[k] in cs;
      var j :| 0 <= j < |cs| && cs[j] == d[k];
    }
  }

  lemma {:induction false} DecodesHave(cs: seq<Candidate>, c: Candidate)
    requires c in cs && c.decode
    ensures c in Decodes(cs)
  {
    SplitFacts(cs);
  }

  lemma {:induction false} SplitLength(cs: seq<Candidate>)
    ensures |Decodes(cs)| + |Prefills(cs)| == |cs|
  {
    if cs != [] {
      SplitLength(cs[..|cs| - 1]);
    }
  }

  // -- graph mode ---------------------------------------------------------------------------

  /** A decode item that does not sample re-feeds a request that was preempted; the others are decoding. */
  lemma {:induction false} DecodeItemKinds(m: Model, cfg: Config, s: Sys, item: BatchItem)
    requires Core(m, cfg, s, [], Unfed) && item.id in s.active && NextSlice(s, item) && item.isDecode
    ensures item.id < |s.reqs|
    ensures !item.sample ==> !s.Get(item.id).state.Decoding?
    ensures !s.Get(item.id).state.Decoding? ==> s.Get(item.id).preemptions > 0
  {
    assert Settled(s, item.id) && Faithful(m, cfg, s.reqs[item.id]);
  }

  /** Under the production policy such an item comes last. */
  lemma {:induction false} RefeedingLast(m: Model, cfg: Config, s: Sys, i: nat, j: nat)
    requires Core(m, cfg, s, [], Unfed) && cfg.priority == DecodeFirst && AllDecode(BuildPlan(cfg, s))
    requires i < |BuildPlan(cfg, s)| && j < |BuildPlan(cfg, s)| && i != j && !BuildPlan(cfg, s)[i].sample
    ensures j < i && BuildPlan(cfg, s)[j].sample
  {
    hide BuildPlan, Core, TokenCount, ItemMatches;
    CorePlaces(m, cfg, s);
    var items := BuildPlan(cfg, s);
    PlanGuarantees(cfg, s);
    assert items[i] in items && items[j] in items;
    assert NextSlice(s, items[i]) && NextSlice(s, items[j]);
    DecodeItemKinds(m, cfg, s, items[i]);
    DecodeItemKinds(m, cfg, s, items[j]);
    assert ItemIds(items)[i] != ItemIds(items)[j];
    OnlyOneReturned(m, cfg, s, items[i].id, items[j].id);
    PlanOrder(cfg, s, i, j);
  }

  lemma {:induction false} OnlyOneReturned(m: Model, cfg: Config, s: Sys, i: nat, j: nat)
    requires Core(m, cfg, s, [], Unfed) && i in s.active && j in s.active && i != j && s.Get(i).preemptions > 0
    requires !s.Get(j).state.Decoding? ==> s.Get(j).preemptions > 0
    requires !s.Get(j).Terminal()
    ensures s.Get(j).state.Decoding? && s.Get(j).fed + 1 == |s.Get(j).Known()|
  {
    hide CacheOk, AllFaithful, Flight;
    assert Settled(s, j);
  }

  /** Under the production policy whoever decodes precedes whoever does not. */
  lemma {:induction false} PlanOrder(cfg: Config, s: Sys, i: nat, j: nat)
    requires NoDup(s.active) && cfg.priority == DecodeFirst && i < |BuildPlan(cfg, s)| && j < |BuildPlan(cfg, s)|
    requires i != j
    requires !s.Get(BuildPlan(cfg, s)[i].id).state.Decoding?
    requires s.Get(BuildPlan(cfg, s)[j].id).state.Decoding?
    requires s.Get(BuildPlan(cfg, s)[j].id).fed + 1 == |s.Get(BuildPlan(cfg, s)[j].id).Known()|
    ensures j < i
  {
    hide Fill, Sorted, Candidates, TokenCount, Decodes, Prefills;
    var items, cs := BuildPlan(cfg, s), Candidates(s, s.active);
    CandidatesFacts(s, s.active);
    SortedIds(cfg.priority, cs);
    SortedFacts(cfg.priority, cs);
    var sorted := Sorted(cfg.priority, cs);
    forall k | 0 <= k < |sorted| ensures FromRequest(s, s.active, sorted[k]) {
      assert sorted[k] in cs;
      var l :| 0 <= l < |cs| && cs[l] == sorted[k];
    }
    FillFacts(cfg, s, sorted, cfg.budget);
    assert ItemIds(items)[i] == CandidateIds(sorted)[i] && ItemIds(items)[j] == CandidateIds(sorted)[j];
    assert FromRequest(s, s.active, sorted[i]) && FromRequest(s, s.active, sorted[j]);
    assert sorted[j].decode && !sorted[i].decode;
    DecodeFirstSort(cs);
    SplitFacts(cs);
  }

  lemma {:induction false} SmallBuckets()
    ensures GraphBucket(1) == 1 && GraphBucket(2) == 2
  {
    assert BitLength(0) == 0 && BitLength(1) == 1;
    assert Pow2(1) == 2 * Pow2(0);
  }

  /** With two or more tokens per chunk a decode item that does not sample has taken the last of the budget. */
  lemma {:induction false} UnsampledTakesLast(cfg: Config, s: Sys, k: nat)
    requires NoDup(s.active) && cfg.chunk >= 2 && AllDecode(BuildPlan(cfg, s))
    requires k < |BuildPlan(cfg, s)| && !BuildPlan(cfg, s)[k].sample
    ensures |BuildPlan(cfg, s)| == k + 1 == cfg.budget
  {
    var items := BuildPlan(cfg, s);
    PlanGuarantees(cfg, s);
    SlicesMaximal(cfg, s);
    hide BuildPlan;
    DecodesOneToken(s, items);
    OneTokenFlat(items);
    OneTokenFlat(items[..k + 1]);
  }

  /** With two or more tokens per chunk every all-decode plan samples up to its last item, whatever the policy. */
  lemma {:induction false} ChunkedRowsSafe(cfg: Config, s: Sys)
    requires NoDup(s.active) && cfg.chunk >= 2
    ensures RowsSafe(cfg.graph, BuildPlan(cfg, s))
  {
    var items := BuildPlan(cfg, s);
    if PaddedRun(cfg.graph, items) {
      PlanGuarantees(cfg, s);
      DecodesOneToken(s, items);
      forall i, j | 0 <= i < j < |items| && items[j].sample ensures items[i].sample {
        if !items[i].sample {
          UnsampledTakesLast(cfg, s, i);
        }
      }
    }
  }

  /** Batches of one or two fill their buckets. */
  lemma {:induction false} SmallRowsSafe(cfg: Config, s: Sys)
    requires NoDup(s.active) && (|s.active| <= 2 || cfg.budget <= 2)
    ensures !PaddedRun(cfg.graph, BuildPlan(cfg, s))
  {
    hide BuildPlan;
    var items := BuildPlan(cfg, s);
    PlanGuarantees(cfg, s);
    if AllDecode(items) {
      DecodesOneToken(s, items);
      OneTokenFlat(items);
      NoMoreThan(ItemIds(items), s.active);
      SmallBuckets();
    }
  }

  /** Every plan of a safe configuration gets its own rows in graph mode. */
  lemma {:induction false} PlanRowsSafe(m: Model, cfg: Config, s: Sys)
    requires Core(m, cfg, s, [], Unfed) && GraphSafe(cfg)
    ensures RowsSafe(cfg.graph, BuildPlan(cfg, s))
  {
    CorePlaces(m, cfg, s);
    hide Core;
    if PaddedRun(cfg.graph, BuildPlan(cfg, s)) {
      if cfg.priority == DecodeFirst {
        DecodeFirstRowsSafe(m, cfg, s);
      } else if cfg.chunk >= 2 {
        ChunkedRowsSafe(cfg, s);
      } else {
        SmallRowsSafe(cfg, s);
      }
    }
  }

  /**
   * The limits for which graph mode takes every plan: one resident at a time; or two or more tokens per chunk and
   * no bucket that a plan can fill with its last item cut short by the budget, unless a single row is left to
   * broadcast.
   */
  ghost predicate TakesAll(chunk: Positive, budget: Positive, activeLimit: int) {
    activeLimit <= 1 || (chunk >= 2 && (budget > activeLimit || budget == 2 || GraphBucket(budget) != budget))
  }

  ghost predicate GraphComplete(cfg: Config) {
    cfg.graph ==> TakesAll(cfg.chunk, cfg.budget, cfg.activeLimit)
  }

  /** The shape of an all-decode plan with two or more tokens per chunk. */
  lemma {:induction false} ChunkedDecodePlan(cfg: Config, s: Sys)
    requires NoDup(s.active) && cfg.chunk >= 2 && AllDecode(BuildPlan(cfg, s))
    ensures var items := BuildPlan(cfg, s);
      && OneTokenEach(items) && |items| <= |s.active|
      && (forall k :: 0 <= k < |items| - 1 ==> items[k].sample)
      && (items != [] && !items[|items| - 1].sample ==> |items| == cfg.budget)
  {
    var items := BuildPlan(cfg, s);
    PlanGuarantees(cfg, s);
    hide BuildPlan, NoDup;
    DecodesOneToken(s, items);
    NoMoreThan(ItemIds(items), s.active);
    forall k | 0 <= k < |items| && !items[k].sample ensures |items| == k + 1 == cfg.budget {
      UnsampledTakesLast(cfg, s, k);
    }
  }

  /** In such a configuration graph mode never raises. */
  lemma {:induction false} PlanTaken(m: Model, cfg: Config, s: Sys)
    requires Core(m, cfg, s, [], Unfed) && GraphComplete(cfg)
    ensures !Raises(cfg.graph, BuildPlan(cfg, s))
  {
    hide Core, GraphBucket, BuildPlan, NoDup, OneTokenEach, Raises, AllDecode;
    CorePlaces(m, cfg, s);
    var items := BuildPlan(cfg, s);
    if !cfg.graph || !AllDecode(items) || items == [] {
      NotGraphRun(cfg.graph, items);
    } else if cfg.activeLimit <= 1 {
      SoleSamples(m, cfg, s);
      NearlyAllTaken(cfg.graph, items);
    } else {
      ChunkedDecodePlan(cfg, s);
      NearlyAllTaken(cfg.graph, items);
    }
  }

  /** Where nobody is ever preempted, whoever decodes samples. */
  lemma {:induction false} SoleSamples(m: Model, cfg: Config, s: Sys)
    requires Core(m, cfg, s, [], Unfed) && cfg.activeLimit <= 1 && AllDecode(BuildPlan(cfg, s))
    requires BuildPlan(cfg, s) != []
    ensures var items := BuildPlan(cfg, s); OneTokenEach(items) && forall k :: 0 <= k < |items| ==> items[k].sample
  {
    hide BuildPlan, CacheOk, Residents;
    var items := BuildPlan(cfg, s);
    PlanGuarantees(cfg, s);
    DecodesOneToken(s, items);
    forall k | 0 <= k < |items| ensures items[k].sample {
      NeverRefeeds(m, cfg, s, items[k]);
    }
  }

  lemma {:induction false} NeverRefeeds(m: Model, cfg: Config, s: Sys, item: BatchItem)
    requires Core(m, cfg, s, [], Unfed) && cfg.activeLimit <= 1
    requires item.id in s.active && NextSlice(s, item) && item.isDecode
    ensures item.sample
  {
    DecodeItemKinds(m, cfg, s, item);
    assert Faithful(m, cfg, s.reqs[item.id]);
  }

  lemma {:induction false} NotGraphRun(graph: bool, items: seq<BatchItem>)
    requires !graph || !AllDecode(items) || items == []
    ensures !Raises(graph, items)
  {
  }

  /**
   * A decode-only batch all of which samples, but perhaps its last item, is taken unless it just fills a bucket
   * above two.
   */
  lemma {:induction false} NearlyAllTaken(graph: bool, items: seq<BatchItem>)
    requires OneTokenEach(items) && items != [] && forall k :: 0 <= k < |items| - 1 ==> items[k].sample
    requires items[|items| - 1].sample || |items| == 2 || GraphBucket(|items|) != |items|
    ensures !Raises(graph, items)
  {
    OneTokenFlat(items);
    SampledCount(items);
    AllButLast(items);
    SmallBuckets();
  }

  lemma {:induction false} AllButLast(items: seq<BatchItem>)
    requires items != [] && forall k :: 0 <= k < |items| - 1 ==> items[k].sample
    ensures |SampledItems(items)| == |items| - if items[|items| - 1].sample then 0 else 1
  {
    var init := items[..|items| - 1];
    if init != [] {
      AllButLast(init);
    }
  }

  lemma {:induction false} CorePlaces(m: Model, cfg: Config, s: Sys)
    requires Core(m, cfg, s, [], Unfed)
    ensures NoDup(s.active) && (s.active == [] || |s.active| <= cfg.activeLimit)
  {
  }

  lemma {:induction false} DecodeFirstRowsSafe(m: Model, cfg: Config, s: Sys)
    requires Core(m, cfg, s, [], Unfed) && cfg.priority == DecodeFirst && PaddedRun(cfg.graph, BuildPlan(cfg, s))
    ensures RowsSafe(cfg.graph, BuildPlan(cfg, s))
  {
    hide BuildPlan, Core, GraphBucket;
    var items := BuildPlan(cfg, s);
    CorePlaces(m, cfg, s);
    PlanGuarantees(cfg, s);
    forall k | 0 <= k < |items| ensures |items[k].tokens| == 1 {
      assert items[k] in items && NextSlice(s, items[k]);
    }
    forall i, j | 0 <= i < j < |items| && items[j].sample ensures items[i].sample {
      if !items[i].sample {
        RefeedingLast(m, cfg, s, i, j);
      }
    }
  }

  /**
   * A plan is what the runner asks for: distinct requests, tokens to run, and no more decodes than the active
   * limit.
   */
  lemma {:induction false} PlanExecutable(m: Model, cfg: Config, s: Sys)
    requires Core(m, cfg, s, [], Unfed) && BuildPlan(cfg, s) != []
    ensures var items := BuildPlan(cfg, s);
      && NoDup(ItemIds(items)) && TokenCount(items) > 0
      && (forall k :: 0 <= k < |items| ==> items[k].id < |s.reqs|)
      && (AllDecode(items) ==> TokenCount(items) <= cfg.activeLimit)
  {
    hide BuildPlan, Core, TokenCount, Eligible;
    var items := BuildPlan(cfg, s);
    CorePlaces(m, cfg, s);
    PlanGuarantees(cfg, s);
    ActiveRecords(m, cfg, s);
    hide NoDup;
    assert items[0].id in s.active && NextSlice(s, items[|items| - 1]);
    SomethingToRun(items);
    if AllDecode(items) {
      DecodesOneToken(s, items);
      OneTokenFlat(items);
      NoMoreThan(ItemIds(items), s.active);
    }
  }

  lemma {:induction false} DecodesOneToken(s: Sys, items: seq<BatchItem>)
    requires AllDecode(items) && forall k :: 0 <= k < |items| ==> NextSlice(s, items[k])
    ensures OneTokenEach(items)
  {
    forall k | 0 <= k < |items| ensures |items[k].tokens| == 1 {
      assert items[k] in items && NextSlice(s, items[k]);
    }
  }

  lemma {:induction false} SomethingToRun(items: seq<BatchItem>)
    requires items != [] && items[|items| - 1].tokens != []
    ensures TokenCount(items) > 0
  {
  }

  lemma {:induction false} ActiveRecords(m: Model, cfg: Config, s: Sys)
    requires Core(m, cfg, s, [], Unfed)
    ensures forall i :: i in s.active ==> i < |s.reqs|
  {
  }

  lemma {:induction false} NoMoreThan(xs: seq<nat>, ys: seq<nat>)
    requires NoDup(xs) && NoDup(ys) && forall k :: 0 <= k < |xs| ==> xs[k] in ys
    ensures |xs| <= |ys|
  {
    SetOfNoDup(xs);
    SetOfNoDup(ys);
    if Elements(xs) != Elements(ys) {
      SubsetSize(Elements(xs), Elements(ys));
    }
  }
}
