/** `RaggedRunner` as an object: admission, release and one packed forward over the paged cache. */
module RaggedEngine {
  import opened Lists
  import opened Allocator
  import opened Transformer
  import opened KvCache
  import opened KvCacheValid
  import opened PackedForward
  import opened Packing
  import opened Padding
  import opened Runner
  import opened PagedCache

  // -- packing -------------------------------------------------------------------------------

  lemma {:induction false} FlatSnoc(items: seq<BatchItem>, n: nat)
    requires n < |items|
    ensures FlatOf(items[..n + 1]) == FlatOf(items[..n]).Add(items[n], n)
  {
    assert items[..n + 1][..n] == items[..n];
  }

  lemma {:induction false} FlatNone(items: seq<BatchItem>)
    ensures FlatOf(items[..0]) == Flat([], [], [], [], [], [0], [], [], [], [])
  {
  }

  /** The packing loop: ten lists grown item by item. */
  method PackLists(items: seq<BatchItem>) returns (f: Flat)
    ensures f == FlatOf(items)
  {
    var inputIds: seq<Token>, positions: seq<nat>, ids: seq<nat>, seqIds: seq<nat> := [], [], [], [];
    var ranges: seq<(nat, nat)>, startLoc: seq<nat> := [], [0];
    var contextLens: seq<nat>, finalLens: seq<nat>, sampled: seq<nat>, logitIndices: seq<nat> := [], [], [], [];
    hide FlatOf, TokenCount;
    FlatNone(items);
    for index := 0 to |items|
      invariant Flat(inputIds, positions, ids, seqIds, ranges, startLoc, contextLens, finalLens, sampled,
        logitIndices) ==
                FlatOf(items[..index])
    {
      FlatSnoc(items, index);
      var item := items[index];
      var start := |inputIds|;
      inputIds := inputIds + item.tokens;
      positions := positions + seq(|item.tokens|, o requires 0 <= o => item.start + o);
      ids := ids + seq(|item.tokens|, o => item.id);
      seqIds := seqIds + seq(|item.tokens|, o => index);
      var end := |inputIds|;
      ranges := ranges + [(start, end)];
      startLoc := startLoc + [end];
      contextLens := contextLens + [item.start];
      finalLens := finalLens + [item.End()];
      if item.sample {
        sampled := sampled + [item.id];
        logitIndices := logitIndices + [if end == 0 then 0 else end - 1];
      }
    }
    assert items[..|items|] == items;
    f := Flat(inputIds, positions, ids, seqIds, ranges, startLoc, contextLens, finalLens, sampled, logitIndices);
  }

  /** The width of the block-table tensor. */
  method TableWidth(size: Positive, graph: bool, maxModelLen: nat, tables: map<nat, seq<nat>>, items: seq<BatchItem>)
      returns (width: nat)
    ensures width == Width(size, graph, maxModelLen, tables, items)
  {
    if graph {
      return (maxModelLen + size - 1) / size;
    }
    if items == [] {
      return 1;
    }
    width := 0;
    for i := 0 to |items|
      invariant width == WidestTable(tables, items[..i])
    {
      assert items[..i + 1][..i] == items[..i];
      width := Larger(width, |TableOf(tables, items[i].id)|);
    }
    assert items[..|items|] == items;
  }

  /** Rows of the zero tensor, filled; none when some table is wider than the tensor. */
  method TableRows(tables: map<nat, seq<nat>>, items: seq<BatchItem>, width: nat) returns (rows: Option<seq<seq<nat>>>)
    ensures rows.Some? <==> forall item :: item in items ==> |TableOf(tables, item.id)| <= width
    ensures rows.Some? ==> rows.value == BlockRows(tables, items, width)
  {
    var filled: seq<seq<nat>> := [];
    for row := 0 to |items|
      invariant filled == BlockRows(tables, items[..row], width)
      invariant forall i :: 0 <= i < row ==> |TableOf(tables, items[i].id)| <= width
    {
      var table := TableOf(tables, items[row].id);
      if |table| > width {
        assert items[row] in items;
        return None;
      }
      filled := filled + [table + seq(width - |table|, i => 0)];
    }
    assert items[..|items|] == items;
    rows := Some(filled);
  }

  /** `dict(zip(...))`. */
  method ZipOutputs(m: Model, sampled: seq<nat>, hidden: seq<Vec>, rows: seq<nat>) returns (outputs: map<nat, Token>)
    requires |sampled| <= |rows|
    ensures outputs == Outputs(m, sampled, hidden, rows)
  {
    outputs := map[];
    for k := 0 to |sampled|
      invariant outputs == Outputs(m, sampled[..k], hidden, rows)
    {
      assert sampled[..k + 1][..k] == sampled[..k];
      outputs := outputs[sampled[k] := m.pick(RowAt(hidden, rows[k]))];
    }
    assert sampled[..|sampled|] == sampled;
  }

  /** After growth every packed position is in its table. */
  lemma {:induction false} PositionsCovered(size: Positive, tables: map<nat, seq<nat>>, items: seq<BatchItem>)
    requires forall i :: 0 <= i < |items| ==>
      items[i].id in tables && BlocksFor(size, items[i].End()) <= |tables[items[i].id]|
    ensures var f := FlatOf(items);
      forall t :: 0 <= t < |f.ids| ==> f.ids[t] in tables && f.positions[t] / size < |tables[f.ids[t]]|
  {
    var f := FlatOf(items);
    forall t | 0 <= t < |f.ids| ensures f.ids[t] in tables && f.positions[t] / size < |tables[f.ids[t]]| {
      FlatToken(items, t);
      var item := items[f.seqIds[t]];
      PositionInTable(size, f.positions[t], item.End(), |tables[item.id]|);
    }
  }

  lemma {:induction false} AllCommittable(size: Positive, tables: map<nat, seq<nat>>, ends: seq<(nat, nat)>)
    requires forall i :: 0 <= i < |ends| ==> ends[i].0 in tables && BlocksFor(size, ends[i].1) <= |tables[ends[i].0]|
    ensures Committable(size, tables, ends) == |ends|
  {
    if ends != [] {
      AllCommittable(size, tables, ends[1..]);
    }
  }

  /** After growth every item's table covers its end. */
  lemma {:induction false} GrownCovers(c: Cache, items: seq<BatchItem>)
    requires c.Valid() && NoDup(ItemIds(items)) && c.EnsureCapacity(Required(items)).0 == None
    ensures var g := c.EnsureCapacity(Required(items)).1;
      && g.Valid() && g.size == c.size && |g.pool| == |c.pool|
      && forall i :: 0 <= i < |items| ==>
           items[i].id in g.tables && BlocksFor(g.size, items[i].End()) <= |g.tables[items[i].id]|
  {
    RequiredIds(items);
    EnsureCapacityFacts(c, Required(items));
    var g := c.EnsureCapacity(Required(items)).1;
    forall i | 0 <= i < |items|
      ensures items[i].id in g.tables && BlocksFor(g.size, items[i].End()) <= |g.tables[items[i].id]| {
      assert Required(items)[i] in Required(items);
    }
  }

  class RaggedRunner {
    const model: Model
    const graph: bool
    const maxModelLen: nat
    const activeLimit: nat
    const cache: PagedKVCache
    /** For each captured batch size, the logit rows of the captured batch. */
    var graphs: map<nat, nat>
    var captures: nat
    var replays: nat
    var forwards: nat
    var widestForward: nat

    ghost predicate Valid()
      reads this, cache, cache.allocator, cache.pool
    {
      cache.Valid() && cache.pool.Length == model.layers
    }

    constructor (m: Model, cudaGraphs: bool, modelLen: nat, limit: nat, kv: PagedKVCache)
      requires kv.Valid() && kv.pool.Length == m.layers
      ensures Valid() && model == m && graph == cudaGraphs && maxModelLen == modelLen && activeLimit == limit
      ensures cache == kv
      ensures graphs == map[] && captures == replays == forwards == widestForward == 0
    {
      model, graph, maxModelLen, activeLimit, cache := m, cudaGraphs, modelLen, limit, kv;
      graphs, captures, replays, forwards, widestForward := map[], 0, 0, 0, 0;
    }

    /** An empty table, then the longest cached prefix; none when the reservation is refused. */
    method Admit(id: nat, prompt: seq<Token>) returns (fed: Option<nat>)
      requires Valid() && prompt != []
      modifies cache, cache.allocator, cache.pool
      ensures Valid()
      ensures fed.Some? <==> old(cache.State()).CanReserve(id, 0)
      ensures fed.Some? ==> (cache.State(), fed.value) == old(cache.State()).Reserve(id, 0).Restore(id, prompt)
      ensures fed.None? ==> cache.State() == old(cache.State())
    {
      var error := cache.Reserve(id, 0);
      if error.Some? {
        return None;
      }
      EmptyReserve(old(cache.State()), id);
      var n := cache.RestorePrefix(id, prompt);
      fed := Some(n);
    }

    /** Retain the prompt prefix, then give the blocks back. */
    method Release(id: nat, prompt: seq<Token>)
      requires Valid() && prompt != []
      modifies cache, cache.allocator, cache.pool
      ensures Valid() && cache.State() == old(cache.State()).Store(id, prompt).0.Release(id)
    {
      var stored := cache.StorePrefix(id, prompt);
      cache.Release(id);
    }

    method AllocatedTokens(id: nat) returns (n: nat)
      ensures n == cache.State().AllocatedTokens(id)
    {
      n := cache.AllocatedTokens(id);
    }

    /** Grow the tables for the plan, then build its tensors. */
    method Pack(items: seq<BatchItem>) returns (error: Option<GrowError>, packed: Option<Tensors>, sampled: seq<nat>)
      requires Valid() && NoDup(ItemIds(items))
      modifies cache, cache.allocator
      ensures Valid() && (error, cache.State()) == old(cache.State()).EnsureCapacity(Required(items))
      ensures packed.Some? <==> error.None? && FitsWidth(graph, maxModelLen, cache.State(), items)
      ensures packed.Some? ==>
        packed.value == Packed(graph, maxModelLen, cache.State(), items) && sampled == FlatOf(items).sampled
    {
      RequiredIds(items);
      packed, sampled := None, [];
      error := cache.EnsureCapacityBatch(Required(items));
      if error.Some? {
        return;
      }
      GrownCovers(old(cache.State()), items);
      var f := PackLists(items);
      var width := TableWidth(cache.size, graph, maxModelLen, cache.tables, items);
      var rows := TableRows(cache.tables, items, width);
      PositionsCovered(cache.size, cache.tables, items);
      var slots := cache.SlotMapping(f.ids, f.positions);
      sampled := f.sampled;
      if rows.Some? {
        packed := Some(Tensors(f.inputIds, f.positions, f.seqIds, rows.value, slots.value, f.logitIndices));
      }
    }

    // -- graphs --------------------------------------------------------------------------------

    /** Every captured batch has as many logit rows as tokens. */
    ghost predicate FullCaptures()
      reads this`graphs
    {
      forall n :: n in graphs ==> graphs[n] == n
    }

    /** The start-up captures have been made. */
    ghost predicate Warmed()
      reads this`graphs
    {
      FullCaptures() && (graph ==> forall n :: n in WarmSizes(1, activeLimit) ==> n in graphs)
    }

    /**
     * An unseen batch size is captured on the spot. Otherwise the batch is copied into the captured one, which
     * raises unless the logit rows are as many or one, and the graph is replayed.
     */
    method CountGraph(batch: nat, rows: nat) returns (copied: bool)
      modifies this`graphs, this`captures, this`replays
      ensures graphs == if batch in old(graphs) then old(graphs) else old(graphs)[batch := rows]
      ensures copied <==> batch !in old(graphs) || rows == old(graphs)[batch] || rows == 1
      ensures (captures, replays) ==
        if batch !in old(graphs) then (old(captures) + 1, old(replays))
        else (old(captures), old(replays) + if copied then 1 else 0)
    {
      if batch !in graphs {
        graphs := graphs[batch := rows];
        captures := captures + 1;
        return true;
      }
      copied := rows == graphs[batch] || rows == 1;
      if copied {
        replays := replays + 1;
      }
    }

    /** One capture per power of two up to the active limit. */
    method WarmGraphs()
      requires FullCaptures()
      modifies this`graphs, this`captures, this`replays
      ensures Warmed()
      ensures graphs.Keys == if graph then old(graphs.Keys) + Elements(WarmSizes(1, activeLimit)) else old(graphs.Keys)
    {
      if !graph {
        return;
      }
      var sizes := WarmLoop(activeLimit);
      for i := 0 to |sizes|
        invariant FullCaptures() && graphs.Keys == old(graphs.Keys) + Elements(sizes[..i])
      {
        assert sizes[..i + 1] == sizes[..i] + [sizes[i]];
        var copied := CountGraph(sizes[i], sizes[i]);
      }
      assert sizes[..|sizes|] == sizes;
    }

    // -- one call ------------------------------------------------------------------------------

    method Forward(b: Tensors) returns (hidden: seq<Vec>)
      requires Valid() && b.Shaped()
      modifies cache.pool
      ensures Valid() && |hidden| == |b.inputIds|
      ensures Pass(cache.pool[..], hidden) == Layers(model, cache.size, b, old(cache.pool[..]), model.layers)
    {
      ghost var before := cache.State();
      LayersShape(model, cache.size, b, cache.pool[..], model.layers);
      hidden := PackedForward.Forward(model, cache.size, b, cache.pool);
      ValidFrame(before, cache.State());
    }

    /** `execute_batch`: the plan is not empty, neither is any of its slices, and it names at most the active limit. */
    method ExecuteBatch(items: seq<BatchItem>) returns (outcome: Outcome)
      requires Valid() && Warmed() && NoDup(ItemIds(items)) && TokenCount(items) > 0
      requires AllDecode(items) ==> TokenCount(items) <= activeLimit
      modifies this, cache, cache.allocator, cache.pool
      ensures Valid() && Warmed()
      ensures (outcome, cache.State()) == Execute(model, graph, maxModelLen, old(cache.State()), items)
      ensures GraphBucket(TokenCount(items)) in old(graphs) ==> captures == old(captures)
    {
      hide Cache.Valid, Finish, Cache.EnsureCapacity, FitsWidth;
      var error, packed, sampled := Pack(items);
      if error == Some(Full) {
        return CapacityError;
      }
      if packed.None? {
        return Crashed;
      }
      GrownCovers(old(cache.State()), items);
      forwards, widestForward := forwards + 1, Larger(widestForward, |items|);
      outcome := Run(items, packed.value, sampled);
    }

    /**
     * The same call with an exception out of its forward, which has left `written` in the pool: at the batch's
     * slots anything, elsewhere what was there.
     */
    method FailBatch(items: seq<BatchItem>, written: seq<Layer>) returns (outcome: Outcome)
      requires Valid() && Warmed() && NoDup(ItemIds(items))
      requires WritesMapped(graph, maxModelLen, cache.State(), items, written)
      modifies cache, cache.allocator, cache.pool
      ensures Valid() && Warmed()
      ensures (outcome, cache.State()) == ExecuteFailing(graph, maxModelLen, old(cache.State()), items, written)
    {
      hide Cache.Valid, Cache.EnsureCapacity, FitsWidth, Packed;
      var error, packed, sampled := Pack(items);
      if error == Some(Full) {
        return CapacityError;
      }
      if error.Some? {
        return Crashed;
      }
      cache.Overwrite(written);
      outcome := Crashed;
    }

    /** Forward, commit and sample; decode-only plans go through a graph in graph mode. */
    method Run(items: seq<BatchItem>, b: Tensors, sampled: seq<nat>) returns (outcome: Outcome)
      requires Valid() && Warmed() && b.Shaped() && |b.inputIds| == TokenCount(items) > 0
      requires AllDecode(items) ==> TokenCount(items) <= activeLimit
      requires b.logitIndices == FlatOf(items).logitIndices && sampled == FlatOf(items).sampled
      requires forall i :: 0 <= i < |items| ==>
        items[i].id in cache.tables && BlocksFor(cache.size, items[i].End()) <= |cache.tables[items[i].id]|
      modifies this, cache, cache.pool
      ensures Valid() && Warmed()
      ensures (outcome, cache.State()) == Finish(model, graph, old(cache.State()), items, b)
      ensures GraphBucket(TokenCount(items)) in old(graphs) ==> captures == old(captures)
    {
      hide Cache.Valid, Cache.Commit, Outputs, Layers, Padded, GraphBucket, SampledItems, WarmSizes, BlocksFor;
      SampledCount(items);
      GraphBucketIsLeast(TokenCount(items));
      var batch, rows := b, b.logitIndices;
      if graph && forall item | item in items :: item.isDecode {
        var bucket := GraphBucket(|b.inputIds|);
        if bucket != |b.inputIds| {
          if sampled == [] || |sampled| > bucket || !Padded(b, bucket).Shaped() {
            return Crashed;
          }
          batch, rows := Padded(b, bucket), Arange(bucket);
        }
        BucketWarm(TokenCount(items), activeLimit);
        var copied := CountGraph(bucket, |rows|);
        if !copied {
          return Crashed;
        }
      }
      var hidden := Forward(batch);
      AllCommittable(cache.size, cache.tables, Required(items));
      assert Required(items)[..|Required(items)|] == Required(items);
      var failed := cache.CommitLengths(Required(items));
      var outputs := ZipOutputs(model, sampled, hidden, rows);
      outcome := Ran(outputs);
    }
  }

  /** What a forward that raises may have written by then. */
  ghost predicate WritesMapped(graph: bool, maxModelLen: nat, c: Cache, items: seq<BatchItem>, written: seq<Layer>) {
    var (error, g) := c.EnsureCapacity(Required(items));
    error.None? ==> OnlyMapped(Packed(graph, maxModelLen, g, items).slots, g.pool, written)
  }

  /** A batch that fills its bucket and is within the active limit was captured at start-up. */
  lemma {:induction false} BucketWarm(n: Positive, limit: nat)
    ensures GraphBucket(n) == n <= limit ==> n in WarmSizes(1, limit)
  {
    if GraphBucket(n) == n <= limit {
      assert Pow2(0) == 1;
      WarmSizesFrom(0, BitLength(n - 1), limit);
    }
  }

  lemma {:induction false} EmptyReserve(c: Cache, id: nat)
    requires c.Valid() && c.CanReserve(id, 0)
    ensures var r := c.Reserve(id, 0); id in r.tables && r.tables[id] == []
  {
    ReserveFacts(c, id);
  }

  lemma {:induction false} LayersShape(m: Model, size: Positive, b: Tensors, pool: seq<Layer>, l: nat)
    requires b.Shaped() && l <= |pool|
    ensures forall k :: 0 <= k < |pool| ==> |Layers(m, size, b, pool, l).pool[k]| == |pool[k]|
  {
    if l > 0 {
      LayersShape(m, size, b, pool, l - 1);
    }
  }
}
