/** Graph mode: a decode batch is padded to a power-of-two bucket by repeating its last row. */
module Padding {
  import opened Lists
  import opened Transformer
  import opened KvCache
  import opened PackedForward
  import opened Packing

  function Pow2(k: nat): Positive {
    if k == 0 then 1 else 2 * Pow2(k - 1)
  }

  function BitLength(n: nat): nat {
    if n == 0 then 0 else 1 + BitLength(n / 2)
  }

  /** `1 << (batch_size - 1).bit_length()`. */
  function GraphBucket(n: Positive): Positive {
    Pow2(BitLength(n - 1))
  }

  lemma {:induction false} BitLengthFacts(n: nat)
    ensures n < Pow2(BitLength(n)) && (n > 0 ==> Pow2(BitLength(n)) <= 2 * n)
    ensures forall k: nat :: n < Pow2(k) ==> BitLength(n) <= k
  {
    if n > 0 {
      BitLengthFacts(n / 2);
      forall k: nat | n < Pow2(k) ensures BitLength(n) <= k {
        assert k > 0 && n / 2 < Pow2(k - 1);
      }
      if n / 2 == 0 {
        assert BitLength(n / 2) == 0;
      }
    }
  }

  lemma {:induction false} Pow2Monotone(a: nat, b: nat)
    requires a <= b
    ensures Pow2(a) <= Pow2(b)
  {
    if a < b {
      Pow2Monotone(a, b - 1);
    }
  }

  /** The bucket is the least power of two holding the batch, and less than twice its size. */
  lemma {:induction false} GraphBucketIsLeast(n: Positive)
    ensures n <= GraphBucket(n) < 2 * n
    ensures forall k: nat :: n <= Pow2(k) ==> GraphBucket(n) <= Pow2(k)
  {
    BitLengthFacts(n - 1);
    forall k: nat | n <= Pow2(k) ensures GraphBucket(n) <= Pow2(k) {
      Pow2Monotone(BitLength(n - 1), k);
    }
  }

  /** The bucket sizes captured at start-up. */
  function WarmSizes(size: Positive, limit: nat): seq<Positive>
    decreases limit + 1 - size
  {
    if size > limit then [] else [size] + WarmSizes(2 * size, limit)
  }

  /** The warm-up loop: one capture per doubling up to the active limit. */
  method WarmLoop(limit: nat) returns (sizes: seq<Positive>)
    ensures sizes == WarmSizes(1, limit)
  {
    sizes := [];
    var size: Positive := 1;
    while size <= limit
      invariant sizes + WarmSizes(size, limit) == WarmSizes(1, limit)
      decreases limit + 1 - size
    {
      assert sizes + WarmSizes(size, limit) == (sizes + [size]) + WarmSizes(2 * size, limit);
      sizes := sizes + [size];
      size := 2 * size;
    }
    assert sizes + [] == sizes;
  }

  lemma {:induction false} WarmSizesFrom(j: nat, k: nat, limit: nat)
    requires j <= k
    ensures Pow2(k) in WarmSizes(Pow2(j), limit) <==> Pow2(k) <= limit
    decreases k - j
  {
    Pow2Monotone(j, k);
    if Pow2(j) <= limit {
      assert Pow2(j + 1) == 2 * Pow2(j);
      if j < k {
        WarmSizesFrom(j + 1, k, limit);
      }
    }
  }

  /** With a power-of-two active limit no batch size up to the limit is captured on the request path. */
  lemma {:induction false} BucketsPrecaptured(n: Positive, k: nat)
    requires n <= Pow2(k)
    ensures GraphBucket(n) in WarmSizes(1, Pow2(k))
  {
    GraphBucketIsLeast(n);
    assert Pow2(0) == 1;
    WarmSizesFrom(0, BitLength(n - 1), Pow2(k));
  }

  // -- padding ------------------------------------------------------------------------

  function Repeat<T>(s: seq<T>, n: nat): seq<T>
    requires s != []
  {
    s + seq(n, i => s[|s| - 1])
  }

  function Arange(n: nat): seq<nat> {
    seq(n, i requires i >= 0 => i)
  }

  /** The padded tensors of a batch that does not fill its bucket. */
  function Padded(b: Tensors, bucket: nat): Tensors
    requires b.Shaped() && b.inputIds != [] && |b.inputIds| <= bucket
  {
    var padding := bucket - |b.inputIds|;
    Tensors(Repeat(b.inputIds, padding), Repeat(b.positions, padding), Arange(bucket),
            if b.blockTables == [] then [] else Repeat(b.blockTables, padding),
            Repeat(b.slots, padding), Arange(bucket))
  }

  /** One decode token per sequence: token `t` belongs to row `t`. */
  predicate OneTokenRows(b: Tensors) {
    b.Shaped() && b.inputIds != [] && |b.blockTables| == |b.inputIds| && b.seqIds == Arange(|b.inputIds|)
  }

  lemma {:induction false} PaddedShaped(b: Tensors, bucket: nat)
    requires OneTokenRows(b) && |b.inputIds| <= bucket
    ensures Padded(b, bucket).Shaped()
  {
  }

  /** Writing the same value to the same slot again changes nothing. */
  lemma {:induction false} AppendRepeat(layer: Layer, slots: seq<nat>, kvs: seq<KV>, n: nat)
    requires |slots| == |kvs| && slots != []
    ensures AppendSlots(layer, Repeat(slots, n), Repeat(kvs, n)) == AppendSlots(layer, slots, kvs)
  {
    if n == 0 {
      assert Repeat(slots, 0) == slots && Repeat(kvs, 0) == kvs;
    } else {
      AppendRepeat(layer, slots, kvs, n - 1);
      assert Repeat(slots, n)[..|slots| + n - 1] == Repeat(slots, n - 1);
      assert Repeat(kvs, n)[..|kvs| + n - 1] == Repeat(kvs, n - 1);
      AppendAgain(layer, slots, kvs);
    }
  }

  lemma {:induction false} AppendAgain(layer: Layer, slots: seq<nat>, kvs: seq<KV>)
    requires |slots| == |kvs| && slots != []
    ensures var r, k := AppendSlots(layer, slots, kvs), |slots| - 1;
      slots[k] < |r| ==> r[slots[k]] == kvs[k]
  {
  }

  /**
   * Graph padding preserves the batch: layer by layer the padded run leaves the very same pools, and its
   * first rows are the requests' own rows.
   */
  lemma {:induction false} PaddingPreservesBatch(m: Model, size: Positive, b: Tensors, bucket: nat, pool: seq<Layer>,
                                                 l: nat)
    requires OneTokenRows(b) && |b.inputIds| <= bucket && l <= |pool|
    ensures Padded(b, bucket).Shaped()
    ensures var s, s' := Layers(m, size, b, pool, l), Layers(m, size, Padded(b, bucket), pool, l);
      s'.pool == s.pool && s'.hidden == Repeat(s.hidden, bucket - |b.inputIds|)
  {
    hide LayerPass;
    PaddedShaped(b, bucket);
    if l == 0 {
      PaddedEmbedding(m, b, bucket);
    } else {
      hide Padded, Repeat;
      PaddingPreservesBatch(m, size, b, bucket, pool, l - 1);
      PaddedLayer(m, size, b, bucket, l - 1, Layers(m, size, b, pool, l - 1));
    }
  }

  lemma {:induction false} PaddedEmbedding(m: Model, b: Tensors, bucket: nat)
    requires OneTokenRows(b) && |b.inputIds| <= bucket
    ensures Embedded(m, Padded(b, bucket)) == Repeat(Embedded(m, b), bucket - |b.inputIds|)
  {
  }

  lemma {:induction false} PaddedLayer(m: Model, size: Positive, b: Tensors, bucket: nat, k: nat, s: Pass)
    requires OneTokenRows(b) && |b.inputIds| <= bucket && |s.hidden| == |b.inputIds| && k < |s.pool|
    ensures Padded(b, bucket).Shaped()
    ensures var n := bucket - |b.inputIds|; var s', r := Pass(s.pool, Repeat(s.hidden, n)), LayerPass(m, size, b, k, s);
      LayerPass(m, size, Padded(b, bucket), k, s') == Pass(r.pool, Repeat(r.hidden, n))
  {
    PaddedProjection(m, b, bucket, k, s.hidden);
    AppendRepeat(s.pool[k], b.slots, Projected(m, b, k, s.hidden), bucket - |b.inputIds|);
    PaddedMix(m, size, b, bucket, k, s.hidden, AppendSlots(s.pool[k], b.slots, Projected(m, b, k, s.hidden)));
  }

  lemma {:induction false} PaddedProjection(m: Model, b: Tensors, bucket: nat, k: nat, hidden: seq<Vec>)
    requires OneTokenRows(b) && |b.inputIds| <= bucket && |hidden| == |b.inputIds|
    ensures var n := bucket - |b.inputIds|;
      && Padded(b, bucket).Shaped()
      && Projected(m, Padded(b, bucket), k, Repeat(hidden, n)) == Repeat(Projected(m, b, k, hidden), n)
  {
    PaddedShaped(b, bucket);
  }

  lemma {:induction false} PaddedMix(m: Model, size: Positive, b: Tensors, bucket: nat, k: nat, hidden: seq<Vec>,
                                     layer: Layer)
    requires OneTokenRows(b) && |b.inputIds| <= bucket && |hidden| == |b.inputIds|
    ensures var n := bucket - |b.inputIds|;
      && Padded(b, bucket).Shaped()
      && Mixed(m, size, Padded(b, bucket), k, Repeat(hidden, n), layer) ==
           Repeat(Mixed(m, size, b, k, hidden, layer), n)
  {
    PaddedShaped(b, bucket);
  }

  // -- which logit row goes to which request ---------------------------------------------

  /** The positions, in the plan, of the items that sample. */
  function SampledItems(items: seq<BatchItem>): seq<nat> {
    if items == [] then [] else
    var n := |items| - 1;
    if items[n].sample then SampledItems(items[..n]) + [n] else SampledItems(items[..n])
  }

  predicate AllDecode(items: seq<BatchItem>) {
    forall item | item in items :: item.isDecode
  }

  ghost predicate OneTokenEach(items: seq<BatchItem>) {
    forall i :: 0 <= i < |items| ==> |items[i].tokens| == 1
  }

  lemma {:induction false} OneTokenFlat(items: seq<BatchItem>)
    requires OneTokenEach(items)
    ensures TokenCount(items) == |items|
    ensures FlatOf(items).seqIds == Arange(|items|)
    ensures FlatOf(items).logitIndices == SampledItems(items)
  {
    if items != [] {
      OneTokenFlat(items[..|items| - 1]);
    }
  }

  lemma {:induction false} SampledCount(items: seq<BatchItem>)
    ensures |FlatOf(items).sampled| == |FlatOf(items).logitIndices| == |SampledItems(items)|
    ensures forall k :: 0 <= k < |SampledItems(items)| ==>
      SampledItems(items)[k] < |items| && items[SampledItems(items)[k]].sample &&
      FlatOf(items).sampled[k] == items[SampledItems(items)[k]].id
  {
    if items != [] {
      SampledCount(items[..|items| - 1]);
    }
  }

  /** The sampling items form a leading segment of the plan. */
  ghost predicate SampledFirst(items: seq<BatchItem>) {
    forall i, j :: 0 <= i < j < |items| && items[j].sample ==> items[i].sample
  }

  lemma {:induction false} SampledItemsFacts(items: seq<BatchItem>)
    ensures var s := SampledItems(items);
      && |s| <= |items|
      && (forall k :: 0 <= k < |s| ==> k <= s[k] < |items| && items[s[k]].sample)
      && (forall i :: 0 <= i < |items| && items[i].sample ==> i in s)
  {
    if items != [] {
      SampledItemsFacts(items[..|items| - 1]);
    }
  }

  /**
   * A padded run hands out rows 0, 1, ... to the sampling requests in plan order. That is each one's own row
   * if and only if the sampling items come first in the plan.
   */
  lemma {:induction false} PaddedRowsRight(items: seq<BatchItem>)
    ensures (forall k :: 0 <= k < |SampledItems(items)| ==> SampledItems(items)[k] == k) <==> SampledFirst(items)
  {
    SampledItemsFacts(items);
    var s := SampledItems(items);
    if forall k :: 0 <= k < |s| ==> s[k] == k {
      forall i, j | 0 <= i < j < |items| && items[j].sample ensures items[i].sample {
        var k :| 0 <= k < |s| && s[k] == j;
        assert s[i] == i;
      }
    } else if SampledFirst(items) {
      SampledFirstPrefix(items);
    }
  }

  lemma {:induction false} SampledFirstPrefix(items: seq<BatchItem>)
    requires SampledFirst(items)
    ensures SampledItems(items) == Arange(|SampledItems(items)|)
    ensures items != [] && items[|items| - 1].sample ==> |SampledItems(items)| == |items|
  {
    if items != [] {
      var n := |items| - 1;
      SampledFirstPrefix(items[..n]);
    }
  }
}
