/** Which row of a padded run each request gets, and exactly when that is its own. */
module GraphRouting {
  import opened Lists
  import opened Transformer
  import opened KvCache
  import opened PackedForward
  import opened Packing
  import opened Padding
  import opened Runner

  /** `p` gives the k-th sampling request the token of its own row, `g` gives it the token of row k. */
  ghost predicate RowsGiven(m: Model, items: seq<BatchItem>, hidden: seq<Vec>, g: map<nat, Token>, p: map<nat, Token>) {
    var s := SampledItems(items);
    && |hidden| == |items| && g.Keys == p.Keys
    && forall k :: 0 <= k < |s| ==>
         && k <= s[k] < |items| && items[s[k]].id in p
         && g[items[s[k]].id] == m.pick(hidden[k]) && p[items[s[k]].id] == m.pick(hidden[s[k]])
  }

  /**
   * Padded or not, the run leaves the same cache and names the same requests. The plain run gives each
   * sampling request the token of its own row, the padded run gives the k-th one the token of row k.
   */
  lemma {:induction false} PaddedRunOutputs(m: Model, c: Cache, items: seq<BatchItem>, b: Tensors)
    requires PaddedPlan(m, c, items, b)
    ensures var (g, gc), (p, pc) := Finish(m, true, c, items, b), Finish(m, false, c, items, b);
      g.Ran? && p.Ran? && gc == pc && RowsGiven(m, items, FinalHidden(m, c, b), g.outputs, p.outputs)
  {
    hide RowsGiven, Outputs, FlatOf, Layers, Cache.Commit;
    BothRuns(m, c, items, b);
    GivenRows(m, items, FinalHidden(m, c, b));
  }

  lemma {:induction false} GivenRows(m: Model, items: seq<BatchItem>, hidden: seq<Vec>)
    requires OneTokenEach(items) && NoDup(ItemIds(items)) && |hidden| == TokenCount(items) > 0
    ensures var f, bucket := FlatOf(items), GraphBucket(|hidden|);
      && |f.sampled| == |f.logitIndices| <= bucket && |hidden| <= bucket
      && RowsGiven(m, items, hidden, Outputs(m, f.sampled, Repeat(hidden, bucket - |hidden|), Arange(bucket)),
                                     Outputs(m, f.sampled, hidden, f.logitIndices))
  {
    hide Outputs, FlatOf, GraphBucket, Repeat, SampledItems, TokenCount, NoDup;
    PlanShape(items);
    RowsOutputs(m, FlatOf(items).sampled, hidden, SampledItems(items), GraphBucket(|hidden|));
  }

  lemma {:induction false} RowsOutputs(m: Model, sampled: seq<nat>, hidden: seq<Vec>, rows: seq<nat>, bucket: nat)
    requires NoDup(sampled) && |sampled| == |rows| <= |hidden| <= bucket && hidden != []
    requires forall k :: 0 <= k < |rows| ==> rows[k] < |hidden|
    ensures var g, p := Outputs(m, sampled, Repeat(hidden, bucket - |hidden|), Arange(bucket)),
      Outputs(m, sampled, hidden, rows);
      && g.Keys == p.Keys
      && forall k :: 0 <= k < |rows| ==>
           sampled[k] in p && g[sampled[k]] == m.pick(hidden[k]) && p[sampled[k]] == m.pick(hidden[rows[k]])
  {
    hide Outputs, NoDup;
    OutputsFacts(m, sampled, hidden, rows);
    OutputsFacts(m, sampled, Repeat(hidden, bucket - |hidden|), Arange(bucket));
  }

  /**
   * Exactly when graph mode changes nothing: if the batch's rows pick different tokens, a padded run agrees
   * with the plain run if and only if the sampling items come first in the plan.
   */
  lemma {:induction false} GraphAgreesExactly(m: Model, c: Cache, items: seq<BatchItem>, b: Tensors)
    requires PaddedPlan(m, c, items, b)
    requires forall i, j :: 0 <= i < j < |FinalHidden(m, c, b)| ==>
      m.pick(FinalHidden(m, c, b)[i]) != m.pick(FinalHidden(m, c, b)[j])
    ensures Finish(m, true, c, items, b) == Finish(m, false, c, items, b) <==> SampledFirst(items)
  {
    PaddedRunOutputs(m, c, items, b);
    PaddedRowsRight(items);
    hide Finish;
    var s, hidden := SampledItems(items), FinalHidden(m, c, b);
    if SampledFirst(items) {
      assert items[s[0]] in items;
      SampledItemsFacts(items);
      GraphSameAsPlain(m, true, c, items, b);
    } else {
      var k :| 0 <= k < |s| && s[k] != k;
      assert m.pick(hidden[k]) != m.pick(hidden[s[k]]);
    }
  }
}
