/** One call of the ragged runner: grow, pack, run, commit, sample. */
module Runner {
  import opened Lists
  import opened Allocator
  import opened Transformer
  import opened KvCache
  import opened KvCacheValid
  import opened KvCacheContent
  import opened PackedForward
  import opened Packing
  import opened Padding

  /** `CapacityError` carries the capacity marker; `Crashed` is any other exception. */
  datatype Outcome = Ran(outputs: map<nat, Token>) | CapacityError | Crashed

  function RowAt(hidden: seq<Vec>, t: nat): Vec {
    if t < |hidden| then hidden[t] else []
  }

  /** `dict(zip(sampled_request_ids, argmax rows))`. */
  function Outputs(m: Model, sampled: seq<nat>, hidden: seq<Vec>, rows: seq<nat>): map<nat, Token>
    requires |sampled| <= |rows|
  {
    if sampled == [] then map[] else
    var n := |sampled| - 1;
    Outputs(m, sampled[..n], hidden, rows)[sampled[n] := m.pick(RowAt(hidden, rows[n]))]
  }

  /** Decode-only plans that do not fill their bucket are padded in graph mode. */
  predicate PaddedRun(graph: bool, items: seq<BatchItem>) {
    graph && AllDecode(items) && TokenCount(items) > 0 && GraphBucket(TokenCount(items)) != TokenCount(items)
  }

  /**
   * A decode-only plan that fills its bucket is copied into the batch captured for that size at start-up, which
   * has one logit row per token. The copy raises unless the plan has as many rows, or a single one to broadcast.
   */
  predicate Unreplayable(graph: bool, items: seq<BatchItem>) {
    graph && AllDecode(items) && TokenCount(items) > 0 && GraphBucket(TokenCount(items)) == TokenCount(items) &&
    |FlatOf(items).logitIndices| != TokenCount(items) && |FlatOf(items).logitIndices| != 1
  }

  /** Graph mode does not take the plan: no captured batch fits it, or it is to be padded and nobody samples. */
  predicate Raises(graph: bool, items: seq<BatchItem>) {
    Unreplayable(graph, items) || (PaddedRun(graph, items) && FlatOf(items).sampled == [])
  }

  /** Forward, commit and greedy sampling, the tables having grown. */
  function Finish(m: Model, graph: bool, c: Cache, items: seq<BatchItem>, b: Tensors): (Outcome, Cache)
    requires b.Shaped() && |c.pool| == m.layers && |b.inputIds| == TokenCount(items)
  {
    SampledCount(items);
    var f := FlatOf(items);
    if PaddedRun(graph, items) then
      GraphBucketIsLeast(TokenCount(items));
      var bucket := GraphBucket(TokenCount(items));
      if f.sampled == [] || |f.sampled| > bucket || !Padded(b, bucket).Shaped() then (Crashed, c) else
      var pass := Layers(m, c.size, Padded(b, bucket), c.pool, m.layers);
      (Ran(Outputs(m, f.sampled, pass.hidden, Arange(bucket))), c.(pool := pass.pool).Commit(Required(items)))
    else if Unreplayable(graph, items) then (Crashed, c) else
      var pass := Layers(m, c.size, b, c.pool, m.layers);
      (Ran(Outputs(m, f.sampled, pass.hidden, f.logitIndices)), c.(pool := pass.pool).Commit(Required(items)))
  }

  predicate FitsWidth(graph: bool, maxModelLen: nat, c: Cache, items: seq<BatchItem>) {
    forall item | item in items ::
      |TableOf(c.tables, item.id)| <= Width(c.size, graph, maxModelLen, c.tables, items)
  }

  function Packed(graph: bool, maxModelLen: nat, c: Cache, items: seq<BatchItem>): (b: Tensors)
    ensures b.Shaped() && |b.inputIds| == TokenCount(items)
  {
    TensorsOf(c.size, c.tables, items, Width(c.size, graph, maxModelLen, c.tables, items))
  }

  function Execute(m: Model, graph: bool, maxModelLen: nat, c: Cache, items: seq<BatchItem>): (Outcome, Cache) {
    var (error, grown) := c.EnsureCapacity(Required(items));
    if error == Some(Full) then (CapacityError, grown)
    else if error.Some? || !FitsWidth(graph, maxModelLen, grown, items) || |grown.pool| != m.layers
      then (Crashed, grown)
    else Finish(m, graph, grown, items, Packed(graph, maxModelLen, grown, items))
  }

  /** Pools that differ from `pool` at most in the slots of the batch. */
  ghost predicate OnlyMapped(slots: seq<nat>, pool: seq<Layer>, pool': seq<Layer>) {
    |pool'| == |pool| && forall l :: 0 <= l < |pool| ==>
      |pool'[l]| == |pool[l]| && forall s: nat :: s !in slots ==> Read(pool'[l], s) == Read(pool[l], s)
  }

  /** An exception out of the forward, anywhere, with anything written to the mapped slots so far. */
  ghost function ExecuteFailing(graph: bool, maxModelLen: nat, c: Cache, items: seq<BatchItem>,
                                pool': seq<Layer>): (Outcome, Cache) {
    var (error, grown) := c.EnsureCapacity(Required(items));
    if error == Some(Full) then (CapacityError, grown)
    else if error.Some? || !OnlyMapped(Packed(graph, maxModelLen, grown, items).slots, grown.pool, pool')
      then (Crashed, grown)
    else (Crashed, grown.(pool := pool'))
  }

  // -- the plan a runner may be given -----------------------------------------------------

  /** Distinct resident requests, each with its next contiguous tokens and at least one of them. */
  ghost predicate PlanFor(c: Cache, hist: seq<seq<Token>>, items: seq<BatchItem>) {
    && NoDup(ItemIds(items))
    && forall i :: 0 <= i < |items| ==> PlanItem(c, hist, items[i])
  }

  ghost predicate PlanItem(c: Cache, hist: seq<seq<Token>>, item: BatchItem) {
    && item.id in c.tables && item.id in c.lengths && item.id < |hist|
    && item.start == c.lengths[item.id] && item.tokens != []
    && item.End() <= |hist[item.id]| && item.tokens == hist[item.id][item.start..item.End()]
    && (item.isDecode ==> |item.tokens| == 1)
  }

  /** Graph mode hands out the right rows for this plan. */
  ghost predicate RowsSafe(graph: bool, items: seq<BatchItem>) {
    PaddedRun(graph, items) ==> OneTokenEach(items) && SampledFirst(items)
  }

  // -- growth for a plan ---------------------------------------------------------------------

  ghost predicate Grown(c: Cache, g: Cache, items: seq<BatchItem>) {
    && g.Valid() && g.size == c.size && g.limit == c.limit && g.alloc.total == c.alloc.total
    && g.lengths == c.lengths && g.pool == c.pool
    && (forall r :: r in g.tables <==> r in c.tables)
    && (forall r :: r in c.tables && r !in ItemIds(items) ==> g.tables[r] == c.tables[r])
    && (forall i :: 0 <= i < |items| ==>
          && items[i].id in c.tables
          && |g.tables[items[i].id]| == Larger(|c.tables[items[i].id]|, BlocksFor(c.size, items[i].End())))
  }

  lemma {:induction false} RequiredIds(items: seq<BatchItem>)
    ensures Ids(Required(items)) == ItemIds(items)
  {
  }

  lemma {:induction false} PlanTables(c: Cache, hist: seq<seq<Token>>, items: seq<BatchItem>)
    requires PlanFor(c, hist, items)
    ensures AllTables(c, Required(items))
  {
    forall r | r in Required(items) ensures r.0 in c.tables {
      var i :| 0 <= i < |items| && Required(items)[i] == r;
      assert PlanItem(c, hist, items[i]);
    }
  }

  lemma {:induction false} ResidentsKnown(m: Model, c: Cache, hist: seq<seq<Token>>)
    requires c.Valid() && Agrees(m, c, hist)
    ensures forall r :: r in c.tables ==> r < |hist| && r in c.lengths
  {
  }

  /** Growing for a plan: all of it or nothing, and never at the cost of committed content. */
  lemma {:induction false} GrowForPlan(m: Model, c: Cache, hist: seq<seq<Token>>, items: seq<BatchItem>)
    requires c.Valid() && Agrees(m, c, hist) && PlanFor(c, hist, items)
    ensures var (error, g) := c.EnsureCapacity(Required(items));
      && g.Valid() && Agrees(m, g, hist)
      && (error == Some(Full) || error == None)
      && (error == Some(Full) ==> SameRequests(c, g) && g.prefixes == [])
      && (error == None ==> Grown(c, g, items) && ItemsOk(g.size, g.tables, hist, items))
  {
    hide Agrees, Cache.Valid, Cache.EnsureCapacity;
    RequiredIds(items);
    PlanTables(c, hist, items);
    EnsureCapacityFacts(c, Required(items));
    var (error, g) := c.EnsureCapacity(Required(items));
    assert error.None? || error.value.NoTable? || error.value.Full?;
    ResidentsKnown(m, c, hist);
    AgreesSamePool(m, c, g, hist);
    if error == None {
      forall i | 0 <= i < |items| ensures items[i].id in c.tables && ItemOk(g.size, g.tables, hist, items[i])
        ensures |g.tables[items[i].id]| == Larger(|c.tables[items[i].id]|, BlocksFor(c.size, items[i].End())) {
        assert PlanItem(c, hist, items[i]);
        assert Required(items)[i] == (items[i].id, items[i].End());
      }
    }
  }

  // -- commit ----------------------------------------------------------------------------------

  /** What committing the ends of `items` leaves in the lengths. */
  ghost predicate LengthsCommitted(before: map<nat, nat>, after: map<nat, nat>, items: seq<BatchItem>) {
    && (forall r :: r in after <==> r in before)
    && (forall r :: r in before && r !in ItemIds(items) ==> after[r] == before[r])
    && (forall i :: 0 <= i < |items| ==> items[i].id in after && after[items[i].id] == items[i].End())
  }

  lemma {:induction false} CommitOne(before: map<nat, nat>, mid: map<nat, nat>, items: seq<BatchItem>, item: BatchItem)
    requires LengthsCommitted(before, mid, items) && item.id in before && item.id !in ItemIds(items)
    ensures LengthsCommitted(before, mid[item.id := item.End()], items + [item])
  {
    assert ItemIds(items + [item]) == ItemIds(items) + [item.id];
    assert forall i :: 0 <= i < |items| ==> ItemIds(items)[i] == items[i].id;
  }

  lemma {:induction false} LastId(items: seq<BatchItem>)
    requires items != [] && NoDup(ItemIds(items))
    ensures var n := |items| - 1; NoDup(ItemIds(items[..n])) && items[n].id !in ItemIds(items[..n])
  {
    var n := |items| - 1;
    assert ItemIds(items) == ItemIds(items[..n]) + [items[n].id];
    NoDupConcat(ItemIds(items[..n]), [items[n].id]);
  }

  lemma {:induction false} CommitStep(c: Cache, mid: Cache, init: seq<BatchItem>, item: BatchItem)
    requires mid == c.(lengths := mid.lengths) && LengthsCommitted(c.lengths, mid.lengths, init)
    requires item.id in c.lengths && c.lengths[item.id] <= item.End() && item.id !in ItemIds(init)
    ensures item.id in mid.lengths
    ensures var d := if mid.lengths[item.id] >= item.End() then mid
      else mid.(lengths := mid.lengths[item.id := item.End()]);
      d == c.(lengths := d.lengths) && LengthsCommitted(c.lengths, d.lengths, init + [item])
  {
    CommitOne(c.lengths, mid.lengths, init, item);
    assert mid.lengths[item.id] == item.End() ==> mid.lengths[item.id := item.End()] == mid.lengths;
  }

  lemma {:induction false} CommitFacts(c: Cache, items: seq<BatchItem>)
    requires NoDup(ItemIds(items))
    requires forall i :: 0 <= i < |items| ==> items[i].id in c.lengths && c.lengths[items[i].id] <= items[i].End()
    ensures var d := c.Commit(Required(items));
      d == c.(lengths := d.lengths) && LengthsCommitted(c.lengths, d.lengths, items)
  {
    if items != [] {
      hide LengthsCommitted, ItemIds, NoDup;
      var n := |items| - 1;
      assert Required(items)[..n] == Required(items[..n]);
      LastId(items);
      CommitFacts(c, items[..n]);
      CommitStep(c, c.Commit(Required(items[..n])), items[..n], items[n]);
      assert items == items[..n] + [items[n]];
    }
  }

  // -- the forward -------------------------------------------------------------------------------

  lemma {:induction false} PlanRunnable(m: Model, g: Cache, hist: seq<seq<Token>>, items: seq<BatchItem>, width: nat)
    requires g.Valid() && Agrees(m, g, hist)
    requires ItemsOk(g.size, g.tables, hist, items) && ItemsCached(g, items)
    ensures var rows := RowsOf(g.size, g.tables, hist, items);
      && RowsFrom(g.tables, hist, items, rows)
      && Runnable(m, g.size, g.pool, TensorsOf(g.size, g.tables, items, width), rows)
  {
    PackRows(g.size, g.tables, hist, items);
    PackDescribes(g.size, g.tables, hist, items, width);
    var rows := RowsOf(g.size, g.tables, hist, items);
    RowsNoClash(g, hist, items, rows);
    RowsReady(m, g, hist, items, rows);
    RowsInPool(m, g, hist, items, rows);
  }

  /** Position `p` of request `r` after the pass: right if it was cached or is fed. */
  lemma {:induction false} FedContent(m: Model, g: Cache, hist: seq<seq<Token>>, items: seq<BatchItem>, rows: seq<Row>,
                   after: Layer, l: nat, r: nat, p: nat, n: nat)
    requires g.Valid() && Agrees(m, g, hist) && l < m.layers
    requires ItemsOk(g.size, g.tables, hist, items) && RowsFrom(g.tables, hist, items, rows)
    requires LayerRight(m, g.size, rows, g.pool[l], after, l)
    requires r in g.tables && p < n <= |hist[r]| && BlocksFor(g.size, n) <= |g.tables[r]|
    requires p < g.lengths[r] || exists i ::
      0 <= i < |items| && items[i].id == r && items[i].start <= p < items[i].End()
    ensures Read(after, Slot(g.size, g.tables[r], p)) == KVAt(m, hist[r], l, p)
  {
    var s := Slot(g.size, g.tables[r], p);
    if i :| 0 <= i < |items| && items[i].id == r && items[i].start <= p < items[i].End() {
      FedIsWritten(g, hist, items, rows, i, p);
    }
    if WrittenSlot(g.size, rows, s) {
      var u :| 0 <= u < |rows| && rows[u].hist != [] && Slot(g.size, rows[u].table, rows[u].Position()) == s;
      WrittenContent(m, g, hist, items, rows, after, l, r, p, n, u);
    }
  }

  /** A fed position's slot is among those the batch writes. */
  lemma {:induction false} FedIsWritten(g: Cache, hist: seq<seq<Token>>, items: seq<BatchItem>, rows: seq<Row>, i: nat,
                                        p: nat)
    requires RowsFrom(g.tables, hist, items, rows) && i < |items| && items[i].start <= p < items[i].End()
    ensures items[i].id in g.tables && WrittenSlot(g.size, rows, Slot(g.size, g.tables[items[i].id], p))
  {
    var r := items[i].id;
    assert HasRow(g.tables, hist, r, p, rows);
    var u :| 0 <= u < |rows| && rows[u] == Row(hist[r][..p + 1], g.tables[r]);
    assert rows[u].Position() == p;
  }

  lemma {:induction false} WrittenContent(m: Model, g: Cache, hist: seq<seq<Token>>, items: seq<BatchItem>,
                                          rows: seq<Row>, after: Layer, l: nat, r: nat, p: nat, n: nat, u: nat)
    requires g.Valid() && l < m.layers && u < |rows| && rows[u].hist != []
    requires ItemsOk(g.size, g.tables, hist, items) && FromSome(g.tables, hist, items, rows[u])
    requires r in g.tables && r < |hist| && p < n <= |hist[r]| && BlocksFor(g.size, n) <= |g.tables[r]|
    requires Slot(g.size, rows[u].table, rows[u].Position()) == Slot(g.size, g.tables[r], p)
    requires Read(after, Slot(g.size, rows[u].table, rows[u].Position())) ==
      KVAt(m, rows[u].hist, l, rows[u].Position())
    ensures Read(after, Slot(g.size, g.tables[r], p)) == KVAt(m, hist[r], l, p)
  {
    var i :| 0 <= i < |items| && FromItem(g.tables, hist, items[i], rows[u]);
    assert ItemOk(g.size, g.tables, hist, items[i]);
    SameSlotSamePosition(g, items[i].id, rows[u].Position(), items[i].End(), r, p, n);
    assert rows[u].hist[..p + 1] == hist[r][..p + 1];
    KVPrefix(m, rows[u].hist, hist[r], l, p);
  }

  /** After the pass and the commit, every resident position and every prefix entry holds the right KV. */
  lemma {:induction false} CommittedAgrees(m: Model, g: Cache, hist: seq<seq<Token>>, items: seq<BatchItem>,
                                           rows: seq<Row>, pool': seq<Layer>)
    requires g.Valid() && Agrees(m, g, hist) && NoDup(ItemIds(items))
    requires ItemsOk(g.size, g.tables, hist, items) && RowsFrom(g.tables, hist, items, rows)
    requires forall i :: 0 <= i < |items| ==> items[i].id in g.lengths && g.lengths[items[i].id] == items[i].start
    requires |pool'| == m.layers
    requires forall l :: 0 <= l < m.layers ==> LayerRight(m, g.size, rows, g.pool[l], pool'[l], l)
    ensures var d := g.(pool := pool').Commit(Required(items)); d.Valid() && Agrees(m, d, hist)
  {
    var h := g.(pool := pool');
    CommitFacts(h, items);
    var d := h.Commit(Required(items));
    forall r | r in d.tables
      ensures BlocksFor(d.size, d.lengths[r]) <= |d.tables[r]|
      ensures Holds(m, d.pool, d.size, d.tables[r], hist[r], d.lengths[r]) {
      CommittedTable(m, g, hist, items, rows, pool', d, r);
    }
    ValidFrame(g, d);
    forall e | e in d.prefixes ensures Holds(m, d.pool, d.size, e.blocks, e.key, e.length) {
      EntryUntouched(m, g, hist, items, rows, pool', e);
    }
  }

  lemma {:induction false} EntryUntouched(m: Model, g: Cache, hist: seq<seq<Token>>, items: seq<BatchItem>,
                                          rows: seq<Row>, pool': seq<Layer>, e: Entry)
    requires g.Valid() && Agrees(m, g, hist) && e in g.prefixes
    requires ItemsOk(g.size, g.tables, hist, items) && RowsFrom(g.tables, hist, items, rows)
    requires |pool'| == m.layers
    requires forall l :: 0 <= l < m.layers ==> LayerRight(m, g.size, rows, g.pool[l], pool'[l], l)
    ensures Holds(m, pool', g.size, e.blocks, e.key, e.length)
  {
    forall l, p | 0 <= l < m.layers && 0 <= p < e.length
      ensures Read(pool'[l], Slot(g.size, e.blocks, p)) == KVAt(m, e.key, l, p) {
      WrittenNotInEntry(g, hist, items, rows, e, p);
    }
  }

  lemma {:induction false} CommittedTable(m: Model, g: Cache, hist: seq<seq<Token>>, items: seq<BatchItem>,
                                          rows: seq<Row>, pool': seq<Layer>, d: Cache, r: nat)
    requires g.Valid() && Agrees(m, g, hist) && NoDup(ItemIds(items)) && r in g.tables
    requires ItemsOk(g.size, g.tables, hist, items) && RowsFrom(g.tables, hist, items, rows)
    requires forall i :: 0 <= i < |items| ==> items[i].id in g.lengths && g.lengths[items[i].id] == items[i].start
    requires |pool'| == m.layers
    requires forall l :: 0 <= l < m.layers ==> LayerRight(m, g.size, rows, g.pool[l], pool'[l], l)
    requires r in d.lengths && (r !in ItemIds(items) ==> d.lengths[r] == g.lengths[r])
    requires forall i :: 0 <= i < |items| ==> items[i].id in d.lengths && d.lengths[items[i].id] == items[i].End()
    ensures BlocksFor(g.size, d.lengths[r]) <= |g.tables[r]|
    ensures Holds(m, pool', g.size, g.tables[r], hist[r], d.lengths[r])
  {
    var n := d.lengths[r];
    if r in ItemIds(items) {
      var i :| 0 <= i < |items| && items[i].id == r;
      assert ItemOk(g.size, g.tables, hist, items[i]);
    }
    forall l, p | 0 <= l < m.layers && 0 <= p < n
      ensures Read(pool'[l], Slot(g.size, g.tables[r], p)) == KVAt(m, hist[r], l, p) {
      FedContent(m, g, hist, items, rows, pool'[l], l, r, p, n);
    }
  }

  // -- sampled tokens -----------------------------------------------------------------------------

  /** The `k`-th logit row belongs to the last fed token of the `k`-th sampling item. */
  lemma {:induction false} LogitRows(size: Positive, tables: map<nat, seq<nat>>, hist: seq<seq<Token>>,
                                     items: seq<BatchItem>)
    requires ItemsOk(size, tables, hist, items)
    requires forall i :: 0 <= i < |items| ==> items[i].tokens != []
    ensures var f, rows, s := FlatOf(items), RowsOf(size, tables, hist, items), SampledItems(items);
      && |f.logitIndices| == |f.sampled| == |s|
      && forall k :: 0 <= k < |s| ==>
           && s[k] < |items| && items[s[k]].sample && f.sampled[k] == items[s[k]].id && items[s[k]].id < |hist|
           && f.logitIndices[k] < |rows| && items[s[k]].End() <= |hist[items[s[k]].id]|
           && rows[f.logitIndices[k]].hist == hist[items[s[k]].id][..items[s[k]].End()]
  {
    if items != [] {
      var n := |items| - 1;
      assert ItemOk(size, tables, hist, items[n]);
      LogitRows(size, tables, hist, items[..n]);
    }
  }

  /** The outputs map: the k-th sampled id gets the token of the k-th row. */
  lemma {:induction false} OutputsFacts(m: Model, sampled: seq<nat>, hidden: seq<Vec>, rows: seq<nat>)
    requires |sampled| <= |rows| && NoDup(sampled)
    ensures var o := Outputs(m, sampled, hidden, rows);
      && (forall r :: r in o <==> r in sampled)
      && (forall k :: 0 <= k < |sampled| ==> o[sampled[k]] == m.pick(RowAt(hidden, rows[k])))
  {
    if sampled != [] {
      var n := |sampled| - 1;
      assert sampled == sampled[..n] + [sampled[n]];
      OutputsFacts(m, sampled[..n], hidden, rows);
    }
  }

  lemma {:induction false} OutputsSame(m: Model, sampled: seq<nat>, hidden: seq<Vec>, rows: seq<nat>,
                                       hidden': seq<Vec>, rows': seq<nat>)
    requires |sampled| <= |rows| && |sampled| <= |rows'|
    requires forall k :: 0 <= k < |sampled| ==> RowAt(hidden, rows[k]) == RowAt(hidden', rows'[k])
    ensures Outputs(m, sampled, hidden, rows) == Outputs(m, sampled, hidden', rows')
  {
    if sampled != [] {
      OutputsSame(m, sampled[..|sampled| - 1], hidden, rows, hidden', rows');
    }
  }

  predicate SamplesFor(items: seq<BatchItem>, r: nat) {
    exists i :: 0 <= i < |items| && items[i].sample && items[i].id == r
  }

  lemma {:induction false} SampledNoDup(items: seq<BatchItem>)
    requires NoDup(ItemIds(items))
    ensures NoDup(FlatOf(items).sampled)
    ensures forall r :: r in FlatOf(items).sampled <==> SamplesFor(items, r)
  {
    SampledMembers(items);
    if items != [] {
      var n := |items| - 1;
      assert ItemIds(items) == ItemIds(items[..n]) + [items[n].id];
      NoDupConcat(ItemIds(items[..n]), [items[n].id]);
      SampledNoDup(items[..n]);
      assert !SamplesFor(items[..n], items[n].id) by {
        forall i | 0 <= i < n ensures items[i].id in ItemIds(items[..n]) {
          assert ItemIds(items[..n])[i] == items[i].id;
        }
      }
      if items[n].sample {
        NoDupConcat(FlatOf(items[..n]).sampled, [items[n].id]);
      }
    }
  }

  lemma {:induction false} SampledMembers(items: seq<BatchItem>)
    ensures forall r :: r in FlatOf(items).sampled <==> SamplesFor(items, r)
  {
    if items != [] {
      var n := |items| - 1;
      SampledMembers(items[..n]);
      forall r: nat ensures SamplesFor(items, r) <==>
        SamplesFor(items[..n], r) || (items[n].sample && items[n].id == r) {
        if SamplesFor(items[..n], r) {
          var i :| 0 <= i < n && items[..n][i].sample && items[..n][i].id == r;
          assert items[i].sample && items[i].id == r;
        }
        if SamplesFor(items, r) {
          var i :| 0 <= i < |items| && items[i].sample && items[i].id == r;
          assert i < n ==> items[..n][i].sample && items[..n][i].id == r;
        }
      }
    }
  }

  /** The outputs name exactly the requests that sample. */
  ghost predicate NamesSampled(items: seq<BatchItem>, outputs: map<nat, Token>) {
    && (forall r :: r in outputs ==> SamplesFor(items, r))
    && (forall i :: 0 <= i < |items| && items[i].sample ==> items[i].id in outputs)
  }

  lemma {:induction false} OutputsName(m: Model, items: seq<BatchItem>, hidden: seq<Vec>, rows: seq<nat>)
    requires NoDup(ItemIds(items)) && |FlatOf(items).sampled| <= |rows|
    ensures NamesSampled(items, Outputs(m, FlatOf(items).sampled, hidden, rows))
  {
    SampledNoDup(items);
    OutputsFacts(m, FlatOf(items).sampled, hidden, rows);
    forall i | 0 <= i < |items| && items[i].sample ensures SamplesFor(items, items[i].id) {
    }
  }

  /** What a completed call should return: the greedy next token of each request whose tokens are all fed. */
  ghost predicate RightOutputs(m: Model, hist: seq<seq<Token>>, items: seq<BatchItem>, outputs: map<nat, Token>) {
    && NamesSampled(items, outputs)
    && (forall i :: 0 <= i < |items| && items[i].sample ==>
          && items[i].id in outputs && items[i].id < |hist| && 0 < items[i].End() <= |hist[items[i].id]|
          && outputs[items[i].id] == Next(m, hist[items[i].id][..items[i].End()]))
  }

  lemma {:induction false} SampledRow(m: Model, g: Cache, hist: seq<seq<Token>>, items: seq<BatchItem>,
                                      hidden: seq<Vec>, k: nat)
    requires ItemsOk(g.size, g.tables, hist, items)
    requires forall i :: 0 <= i < |items| ==> items[i].tokens != []
    requires HiddenRight(m, RowsOf(g.size, g.tables, hist, items), hidden, m.layers)
    requires k < |SampledItems(items)|
    ensures var f, i := FlatOf(items), SampledItems(items)[k];
      && k < |f.logitIndices| == |f.sampled| && i < |items| && f.sampled[k] == items[i].id < |hist|
      && 0 < items[i].End() <= |hist[items[i].id]|
      && m.pick(RowAt(hidden, f.logitIndices[k])) == Next(m, hist[items[i].id][..items[i].End()])
  {
    LogitRows(g.size, g.tables, hist, items);
    var i := SampledItems(items)[k];
    assert items[i].tokens != [];
  }

  lemma {:induction false} PlainOutputsRight(m: Model, g: Cache, hist: seq<seq<Token>>, items: seq<BatchItem>,
                                             hidden: seq<Vec>)
    requires ItemsOk(g.size, g.tables, hist, items) && NoDup(ItemIds(items))
    requires forall i :: 0 <= i < |items| ==> items[i].tokens != []
    requires HiddenRight(m, RowsOf(g.size, g.tables, hist, items), hidden, m.layers)
    ensures |FlatOf(items).sampled| == |FlatOf(items).logitIndices|
    ensures RightOutputs(m, hist, items, Outputs(m, FlatOf(items).sampled, hidden, FlatOf(items).logitIndices))
  {
    hide SamplesFor, NamesSampled, Outputs, FlatOf, NoDup, ItemsOk, HiddenRight, SampledItems, Next, RowsOf;
    LogitRows(g.size, g.tables, hist, items);
    SampledNoDup(items);
    SampledItemsFacts(items);
    var f := FlatOf(items);
    OutputsFacts(m, f.sampled, hidden, f.logitIndices);
    OutputsName(m, items, hidden, f.logitIndices);
    var o := Outputs(m, f.sampled, hidden, f.logitIndices);
    forall i | 0 <= i < |items| && items[i].sample
      ensures items[i].id in o && items[i].id < |hist| && 0 < items[i].End() <= |hist[items[i].id]|
      ensures o[items[i].id] == Next(m, hist[items[i].id][..items[i].End()]) {
      var k :| 0 <= k < |SampledItems(items)| && SampledItems(items)[k] == i;
      SampledRow(m, g, hist, items, hidden, k);
      assert f.sampled[k] in f.sampled;
    }
  }

  /** A decode-only plan that does not fill its bucket, and tensors packed from it. */
  ghost predicate PaddedPlan(m: Model, c: Cache, items: seq<BatchItem>, b: Tensors) {
    && PaddedRun(true, items) && OneTokenEach(items) && NoDup(ItemIds(items)) && SampledItems(items) != []
    && |c.pool| == m.layers && b.Shaped() && |b.inputIds| == TokenCount(items)
    && b.seqIds == FlatOf(items).seqIds && |b.blockTables| == |items|
  }

  function FinalHidden(m: Model, c: Cache, b: Tensors): seq<Vec>
    requires b.Shaped() && |c.pool| == m.layers
  {
    Layers(m, c.size, b, c.pool, m.layers).hidden
  }

  lemma {:induction false} PlanShape(items: seq<BatchItem>)
    requires OneTokenEach(items) && NoDup(ItemIds(items)) && TokenCount(items) > 0
    ensures var f, s := FlatOf(items), SampledItems(items);
      && TokenCount(items) == |items| <= GraphBucket(|items|)
      && f.seqIds == Arange(|items|)
      && NoDup(f.sampled) && f.logitIndices == s && |f.sampled| == |s| <= |items|
      && forall k :: 0 <= k < |s| ==> k <= s[k] < |items| && f.sampled[k] == items[s[k]].id
  {
    OneTokenFlat(items);
    SampledCount(items);
    SampledItemsFacts(items);
    SampledNoDup(items);
    GraphBucketIsLeast(TokenCount(items));
  }

  /** The two runs side by side: the same pools, the same hidden rows but for the padding. */
  lemma {:induction false} BothRuns(m: Model, c: Cache, items: seq<BatchItem>, b: Tensors)
    requires PaddedPlan(m, c, items, b)
    ensures var f, n, hidden := FlatOf(items), TokenCount(items), FinalHidden(m, c, b);
      && |hidden| == n <= GraphBucket(n) && |f.sampled| == |f.logitIndices| <= n
      && var d := c.(pool := Layers(m, c.size, b, c.pool, m.layers).pool).Commit(Required(items));
         && Finish(m, false, c, items, b) == (Ran(Outputs(m, f.sampled, hidden, f.logitIndices)), d)
         && Finish(m, true, c, items, b) ==
            (Ran(Outputs(m, f.sampled, Repeat(hidden, GraphBucket(n) - n), Arange(GraphBucket(n)))), d)
  {
    hide Outputs, FlatOf, GraphBucket, Layers, Cache.Commit, SampledItems;
    PlanShape(items);
    PaddingPreservesBatch(m, c.size, b, GraphBucket(TokenCount(items)), c.pool, m.layers);
  }

  lemma {:induction false} SafeRows(graph: bool, items: seq<BatchItem>)
    requires RowsSafe(graph, items) && PaddedRun(graph, items) && FlatOf(items).sampled != []
    ensures var f, bucket := FlatOf(items), GraphBucket(TokenCount(items));
      && f.sampled != [] && |f.sampled| == |f.logitIndices| <= |items| == TokenCount(items) <= bucket
      && f.logitIndices == Arange(|f.logitIndices|) && f.seqIds == Arange(|items|)
  {
    OneTokenFlat(items);
    SampledCount(items);
    SampledItemsFacts(items);
    SampledFirstPrefix(items);
    GraphBucketIsLeast(TokenCount(items));
  }

  /**
   * In graph mode a plan whose sampling items come first, if padded, yields exactly what the plain path yields,
   * unless graph mode does not take the plan.
   */
  lemma {:induction false} GraphSameAsPlain(m: Model, graph: bool, c: Cache, items: seq<BatchItem>, b: Tensors)
    requires RowsSafe(graph, items) && |c.pool| == m.layers
    requires b.Shaped() && |b.inputIds| == TokenCount(items)
    requires b.seqIds == FlatOf(items).seqIds && |b.blockTables| == |items|
    ensures Finish(m, graph, c, items, b) == if Raises(graph, items) then (Crashed, c)
      else Finish(m, false, c, items, b)
  {
    hide Layers, Outputs, Repeat, Arange, Cache.Commit, SampledItems, OneTokenEach, SampledFirst;
    SampledCount(items);
    if PaddedRun(graph, items) && FlatOf(items).sampled != [] {
      SafeRows(graph, items);
      var f, n := FlatOf(items), TokenCount(items);
      var bucket := GraphBucket(n);
      PaddingPreservesBatch(m, c.size, b, bucket, c.pool, m.layers);
      RepeatedRows(m, f.sampled, Layers(m, c.size, b, c.pool, m.layers).hidden, f.logitIndices, bucket);
    }
  }

  lemma {:induction false} RepeatedRows(m: Model, sampled: seq<nat>, hidden: seq<Vec>, rows: seq<nat>, bucket: nat)
    requires |sampled| == |rows| <= |hidden| <= bucket && rows == Arange(|rows|) && hidden != []
    ensures Outputs(m, sampled, hidden, rows) == Outputs(m, sampled, Repeat(hidden, bucket - |hidden|), Arange(bucket))
  {
    OutputsSame(m, sampled, hidden, rows, Repeat(hidden, bucket - |hidden|), Arange(bucket));
  }

  // -- one call, as a whole -------------------------------------------------------------------------

  lemma {:induction false} TensorsRows(size: Positive, tables: map<nat, seq<nat>>, items: seq<BatchItem>, width: nat)
    ensures var b := TensorsOf(size, tables, items, width);
      b.seqIds == FlatOf(items).seqIds && |b.blockTables| == |items|
  {
  }

  /** Everything a completed call leaves behind. */
  ghost predicate CompletedCall(m: Model, c: Cache, d: Cache, hist: seq<seq<Token>>, items: seq<BatchItem>,
                                outputs: map<nat, Token>) {
    && d.Valid() && Agrees(m, d, hist)
    && d.size == c.size && d.limit == c.limit && d.alloc.total == c.alloc.total
    && (forall r :: r in d.tables <==> r in c.tables)
    && (forall r :: r in c.tables && r !in ItemIds(items) ==>
          && r in c.lengths && r in d.lengths && d.tables[r] == c.tables[r] && d.lengths[r] == c.lengths[r])
    && (forall i :: 0 <= i < |items| ==>
          && items[i].id in c.tables && items[i].id in d.lengths && d.lengths[items[i].id] == items[i].End()
          && |d.tables[items[i].id]| == Larger(|c.tables[items[i].id]|, BlocksFor(c.size, items[i].End())))
    && NamesSampled(items, outputs)
  }

  /** After growth: raised by graph mode, or completed, with the right tokens if the rows are. */
  lemma {:induction false} FinishFacts(m: Model, graph: bool, maxModelLen: nat, c: Cache, g: Cache,
                                       hist: seq<seq<Token>>, items: seq<BatchItem>)
    requires c.Valid() && PlanFor(c, hist, items)
    requires Grown(c, g, items) && Agrees(m, g, hist) && ItemsOk(g.size, g.tables, hist, items)
    ensures |g.pool| == m.layers
    ensures var (outcome, d) := Finish(m, graph, g, items, Packed(graph, maxModelLen, g, items));
      if Raises(graph, items) then outcome.Crashed? && d == g
      else
        && outcome.Ran? && CompletedCall(m, c, d, hist, items, outcome.outputs)
        && (RowsSafe(graph, items) ==> RightOutputs(m, hist, items, outcome.outputs))
  {
    var b := Packed(graph, maxModelLen, g, items);
    PlainFacts(m, graph, maxModelLen, c, g, hist, items);
    TensorsRows(g.size, g.tables, items, Width(g.size, graph, maxModelLen, g.tables, items));
    hide Finish, CompletedCall, RightOutputs, Packed, PlanFor, Grown, Agrees, ItemsOk;
    if RowsSafe(graph, items) {
      GraphSameAsPlain(m, graph, g, items, b);
    } else {
      DecodesOne(c, hist, items);
      UnsafeFacts(m, c, g, hist, items, b);
    }
  }

  lemma {:induction false} DecodesOne(c: Cache, hist: seq<seq<Token>>, items: seq<BatchItem>)
    requires PlanFor(c, hist, items) && AllDecode(items)
    ensures OneTokenEach(items)
  {
    forall i | 0 <= i < |items| ensures |items[i].tokens| == 1 {
      assert PlanItem(c, hist, items[i]) && items[i] in items;
    }
  }

  /** A padded run differs from the plain run at most in which token each named request is given. */
  lemma {:induction false} UnsafeFacts(m: Model, c: Cache, g: Cache, hist: seq<seq<Token>>, items: seq<BatchItem>,
                                       b: Tensors)
    requires PaddedRun(true, items) && OneTokenEach(items) && NoDup(ItemIds(items))
    requires |g.pool| == m.layers && b.Shaped() && |b.inputIds| == TokenCount(items)
    requires b.seqIds == FlatOf(items).seqIds && |b.blockTables| == |items|
    requires var (outcome, d) := Finish(m, false, g, items, b);
      outcome.Ran? && CompletedCall(m, c, d, hist, items, outcome.outputs)
    ensures var (outcome, d) := Finish(m, true, g, items, b);
      if Raises(true, items) then outcome.Crashed? && d == g
      else outcome.Ran? && CompletedCall(m, c, d, hist, items, outcome.outputs)
  {
    NoSampledItems(items);
    hide Finish, CompletedCall, NamesSampled, Outputs, GraphBucket, FlatOf, SampledItems, TokenCount, Cache.Commit,
      Required;
    if FlatOf(items).sampled == [] {
      NoneSampledRaises(m, g, items, b);
    } else {
      BothRuns(m, g, items, b);
      var n := TokenCount(items);
      var (outcome, d) := Finish(m, true, g, items, b);
      OutputsName(m, items, Repeat(FinalHidden(m, g, b), GraphBucket(n) - n), Arange(GraphBucket(n)));
      RenamedCall(m, c, d, hist, items, Finish(m, false, g, items, b).0.outputs, outcome.outputs);
    }
  }

  lemma {:induction false} NoneSampledRaises(m: Model, c: Cache, items: seq<BatchItem>, b: Tensors)
    requires PaddedRun(true, items) && FlatOf(items).sampled == []
    requires |c.pool| == m.layers && b.Shaped() && |b.inputIds| == TokenCount(items)
    ensures Finish(m, true, c, items, b) == (Crashed, c)
  {
  }

  lemma {:induction false} NoSampledItems(items: seq<BatchItem>)
    ensures SampledItems(items) == [] <==> FlatOf(items).sampled == []
  {
    SampledCount(items);
  }

  lemma {:induction false} RenamedCall(m: Model, c: Cache, d: Cache, hist: seq<seq<Token>>, items: seq<BatchItem>,
                                       outputs: map<nat, Token>, outputs': map<nat, Token>)
    requires CompletedCall(m, c, d, hist, items, outputs) && NamesSampled(items, outputs')
    ensures CompletedCall(m, c, d, hist, items, outputs')
  {
  }

  lemma {:induction false} LengthsOfTables(c: Cache)
    requires c.Valid()
    ensures forall r :: r in c.lengths <==> r in c.tables
  {
  }

  /** The run without graphs. */
  lemma {:induction false} PlainFacts(m: Model, graph: bool, maxModelLen: nat, c: Cache, g: Cache,
                                      hist: seq<seq<Token>>, items: seq<BatchItem>)
    requires c.Valid() && PlanFor(c, hist, items)
    requires Grown(c, g, items) && Agrees(m, g, hist) && ItemsOk(g.size, g.tables, hist, items)
    ensures |g.pool| == m.layers
    ensures var (outcome, d) := Finish(m, false, g, items, Packed(graph, maxModelLen, g, items));
      outcome.Ran? && CompletedCall(m, c, d, hist, items, outcome.outputs) &&
        RightOutputs(m, hist, items, outcome.outputs)
  {
    hide Cache.Valid, Agrees, RowsOf, Layers, NamesSampled, Outputs, FlatOf, Runnable, RowsFrom, LayerRight, NoDup,
      ItemsOk, Width, HiddenRight, BlocksFor;
    LengthsOfTables(c);
    var width := Width(g.size, graph, maxModelLen, g.tables, items);
    var b, rows := Packed(graph, maxModelLen, g, items), RowsOf(g.size, g.tables, hist, items);
    forall i | 0 <= i < |items|
      ensures items[i].id in g.lengths && g.lengths[items[i].id] == items[i].start && items[i].tokens != [] {
      assert PlanItem(c, hist, items[i]);
    }
    TensorsRows(g.size, g.tables, items, width);
    PlanRunnable(m, g, hist, items, width);
    PackedEqualsRecompute(m, g.size, g.pool, b, rows, m.layers);
    var pass := Layers(m, g.size, b, g.pool, m.layers);
    CommittedAgrees(m, g, hist, items, rows, pass.pool);
    CommitFacts(g.(pool := pass.pool), items);
    PlainOutputsRight(m, g, hist, items, pass.hidden);
  }

  /**
   * `execute_batch` on a well-formed plan: it completes with right content, naming the requests that sample,
   * and with their right tokens if the rows are theirs; or it reports capacity and has changed nothing a request
   * can see; or it crashes before the forward.
   */
  lemma {:induction false} ExecuteFacts(m: Model, graph: bool, maxModelLen: nat, c: Cache, hist: seq<seq<Token>>,
                                        items: seq<BatchItem>)
    requires c.Valid() && Agrees(m, c, hist) && PlanFor(c, hist, items)
    ensures var (outcome, d) := Execute(m, graph, maxModelLen, c, items);
      && (outcome.Ran? ==> CompletedCall(m, c, d, hist, items, outcome.outputs))
      && (outcome.Ran? && RowsSafe(graph, items) ==> RightOutputs(m, hist, items, outcome.outputs))
      && (outcome.CapacityError? ==> d.Valid() && Agrees(m, d, hist) && SameRequests(c, d) && d.prefixes == [])
      && (outcome.Crashed? ==> Grown(c, d, items) && Agrees(m, d, hist))
  {
    hide Finish, CompletedCall, RightOutputs, Packed, Cache.EnsureCapacity, Agrees, PlanFor, RowsSafe;
    GrowForPlan(m, c, hist, items);
    var (error, g) := c.EnsureCapacity(Required(items));
    if error == None && FitsWidth(graph, maxModelLen, g, items) {
      FinishFacts(m, graph, maxModelLen, c, g, hist, items);
    }
  }

  /** A call that fails inside the forward leaves all committed content intact. */
  lemma {:induction false} ExecuteFailingFacts(m: Model, graph: bool, maxModelLen: nat, c: Cache, hist: seq<seq<Token>>,
                            items: seq<BatchItem>, pool': seq<Layer>)
    requires c.Valid() && Agrees(m, c, hist) && PlanFor(c, hist, items)
    ensures var (outcome, d) := ExecuteFailing(graph, maxModelLen, c, items, pool');
      && d.Valid() && Agrees(m, d, hist) && !outcome.Ran?
      && (outcome.CapacityError? ==> SameRequests(c, d) && d.prefixes == [])
      && (outcome.Crashed? ==> Grown(c, d.(pool := c.pool), items))
  {
    hide Cache.EnsureCapacity, Agrees, ItemsOk;
    GrowForPlan(m, c, hist, items);
    var (error, g) := c.EnsureCapacity(Required(items));
    var b := Packed(graph, maxModelLen, g, items);
    if error == None {
      assert g.(pool := c.pool) == g;
      if OnlyMapped(b.slots, g.pool, pool') {
        FailedForwardAgrees(m, graph, maxModelLen, c, g, hist, items, pool');
        ValidFrame(g, g.(pool := pool'));
        assert g.(pool := pool').(pool := c.pool) == g;
      }
    }
  }

  lemma {:induction false} FailedForwardAgrees(m: Model, graph: bool, maxModelLen: nat, c: Cache, g: Cache,
                                               hist: seq<seq<Token>>, items: seq<BatchItem>, pool': seq<Layer>)
    requires c.Valid() && PlanFor(c, hist, items)
    requires Grown(c, g, items) && Agrees(m, g, hist) && ItemsOk(g.size, g.tables, hist, items)
    requires OnlyMapped(Packed(graph, maxModelLen, g, items).slots, g.pool, pool')
    ensures Agrees(m, g.(pool := pool'), hist)
  {
    var b, rows := Packed(graph, maxModelLen, g, items), RowsOf(g.size, g.tables, hist, items);
    PackRows(g.size, g.tables, hist, items);
    PackDescribes(g.size, g.tables, hist, items, Width(g.size, graph, maxModelLen, g.tables, items));
    forall s: nat | s in b.slots ensures WrittenSlot(g.size, rows, s) {
      var t :| 0 <= t < |b.slots| && b.slots[t] == s;
      assert DescribesRow(g.size, b, rows[t], t);
    }
    forall i | 0 <= i < |items| ensures items[i].id in g.lengths && items[i].start >= g.lengths[items[i].id] {
      assert PlanItem(c, hist, items[i]);
    }
    PartialForwardAgrees(m, g, hist, items, rows, pool');
  }
}
