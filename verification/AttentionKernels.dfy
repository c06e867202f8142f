/**
 * The two kernels' programs and the torch reference, all proved against softmax attention over the gathered
 * history.
 */
module AttentionKernels {
  import opened Lists
  import opened Allocator
  import opened Transformer
  import opened KvCache
  import opened PackedForward
  import opened Packing
  import opened OnlineSoftmax

  // -- what one tile loads ------------------------------------------------------------------

  /** The key vectors of a physical block, one per lane. */
  function KeyTile(layer: Layer, phys: nat, kvHead: nat): (r: seq<Vec>)
    ensures |r| == BLOCK
  {
    seq(BLOCK, i requires 0 <= i => HeadOf(Read(layer, phys * BLOCK + i).keys, kvHead))
  }

  function ValueTile(layer: Layer, phys: nat, kvHead: nat): (r: seq<Vec>)
    ensures |r| == BLOCK
  {
    seq(BLOCK, i requires 0 <= i => HeadOf(Read(layer, phys * BLOCK + i).values, kvHead))
  }

  /** `tl.load(..., mask=valid, other=0.0)`: lanes beyond the sequence read as zero vectors. */
  function MaskTile(tile: seq<Vec>, valid: nat): (r: seq<Vec>)
    ensures |r| == |tile|
  {
    seq(|tile|, i requires 0 <= i < |tile| => if i < valid then tile[i] else [])
  }

  /** Scores of a tile, minus infinity where the key position is not below the sequence length. */
  function MaskedScores(q: Vec, tile: seq<Vec>, base: nat, seqLen: nat, scale: real, dim: nat): (r: seq<Ext>)
    ensures |r| == |tile|
  {
    seq(|tile|, i requires 0 <= i < |tile| => if base + i < seqLen then Fin(Dot(q, tile[i], dim) * scale) else NegInf)
  }

  function Lane(tile: seq<Vec>, d: nat): seq<real> {
    seq(|tile|, i requires 0 <= i < |tile| => Component(tile[i], d))
  }

  /** `acc * alpha + sum(probs * v_tile)`, component by component. */
  function Accumulate(acc: seq<real>, alpha: real, probs: seq<real>, tile: seq<Vec>): seq<real>
    requires |probs| == |tile|
  {
    seq(|acc|, d requires 0 <= d < |acc| => Times(acc[d], alpha) + SumReal(Products(probs, Lane(tile, d))))
  }

  // -- a tile is the next sixteen keys of the history ---------------------------------------------

  /** On valid lanes the tiles hold the keys and values of the history; the other lanes may hold anything. */
  ghost predicate TileOf(kvs: seq<KV>, kvHead: nat, base: nat, keys: seq<Vec>, values: seq<Vec>) {
    && |keys| == |values| == BLOCK
    && forall i :: 0 <= i < BLOCK && base + i < |kvs| ==>
         keys[i] == HeadOf(kvs[base + i].keys, kvHead) && values[i] == HeadOf(kvs[base + i].values, kvHead)
  }

  lemma {:induction false} BlockIsTile(layer: Layer, table: seq<nat>, seqLen: nat, kvHead: nat, block: nat)
    requires seqLen >= 1
    ensures var phys := PhysicalBlock(table, block);
      TileOf(Gather(layer, BLOCK, table, seqLen - 1), kvHead, block * BLOCK, KeyTile(layer, phys, kvHead),
        ValueTile(layer, phys, kvHead))
  {
    var kvs := Gather(layer, BLOCK, table, seqLen - 1);
    var keys, values := KeyTile(layer, PhysicalBlock(table, block), kvHead),
      ValueTile(layer, PhysicalBlock(table, block), kvHead);
    forall i | 0 <= i < BLOCK && block * BLOCK + i < |kvs|
      ensures keys[i] == HeadOf(kvs[block * BLOCK + i].keys, kvHead)
      ensures values[i] == HeadOf(kvs[block * BLOCK + i].values, kvHead) {
      GatherAt(layer, table, seqLen - 1, block, i);
    }
  }

  lemma {:induction false} MaskedIsTile(kvs: seq<KV>, kvHead: nat, base: nat, keys: seq<Vec>, values: seq<Vec>,
                                        valid: nat)
    requires TileOf(kvs, kvHead, base, keys, values) && base < |kvs| && valid == |kvs| - base
    ensures TileOf(kvs, kvHead, base, MaskTile(keys, valid), MaskTile(values, valid))
  {
  }

  lemma {:induction false} ScoresOfTile(q: Vec, kvs: seq<KV>, kvHead: nat, base: nat, keys: seq<Vec>, values: seq<Vec>,
                                        scale: real, dim: nat)
    requires TileOf(kvs, kvHead, base, keys, values)
    ensures MaskedScores(q, keys, base, |kvs|, scale, dim) == TileScores(Scores(q, kvs, kvHead, scale, dim), base)
  {
    var a, b := MaskedScores(q, keys, base, |kvs|, scale, dim), TileScores(Scores(q, kvs, kvHead, scale, dim), base);
    forall i | 0 <= i < BLOCK ensures a[i] == b[i] {
      if base + i < |kvs| {
        assert keys[i] == HeadOf(kvs[base + i].keys, kvHead);
      }
    }
  }

  /** The whole loop state after one more tile. */
  lemma {:induction false} StateStep(e: real -> real, q: Vec, kvs: seq<KV>, kvHead: nat, scale: real, dim: nat, k: nat,
                  m: Ext, l: real, acc: seq<real>, keys: seq<Vec>, values: seq<Vec>)
    requires IsExp(e) && k < |kvs| && TileOf(kvs, kvHead, k, keys, values)
    requires StateOk(e, Scores(q, kvs, kvHead, scale, dim), AllValues(kvs, kvHead, dim), k, m, l, acc)
    ensures var scores := MaskedScores(q, keys, k, |kvs|, scale, dim);
      var m' := MaxExt(m, TileMax(scores));
      && m'.Fin?
      && var alpha, probs := ExpOf(e, m, m'.value), Probs(e, scores, m'.value);
         StateOk(e, Scores(q, kvs, kvHead, scale, dim), AllValues(kvs, kvHead, dim), AtMost(k + BLOCK, |kvs|),
                 m', Times(l, alpha) + SumReal(probs), Accumulate(acc, alpha, probs, values))
  {
    hide Weighted, Plain, SumReal, MaskedScores;
    var s, vs := Scores(q, kvs, kvHead, scale, dim), AllValues(kvs, kvHead, dim);
    ScoresOfTile(q, kvs, kvHead, k, keys, values, scale, dim);
    TileMaxStep(s, k, m);
    var m' := MaxExt(m, TileMax(TileScores(s, k)));
    NormStep(e, s, k, m, m'.value, l);
    var alpha, probs := ExpOf(e, m, m'.value), Probs(e, TileScores(s, k), m'.value);
    var top := AtMost(k + BLOCK, |kvs|);
    forall d | 0 <= d < dim
      ensures AccOk(e, s[..top], vs[d][..top], m', Times(acc[d], alpha) + SumReal(Products(probs, Lane(values, d)))) {
      ComponentStep(e, s, kvs, kvHead, d, k, m, m'.value, acc[d], values);
    }
    var acc' := Accumulate(acc, alpha, probs, values);
    forall d | 0 <= d < dim ensures AccOk(e, s[..top], vs[d][..top], m', acc'[d]) {
      assert acc'[d] == Times(acc[d], alpha) + SumReal(Products(probs, Lane(values, d)));
    }
  }

  lemma {:induction false} ComponentStep(e: real -> real, s: seq<real>, kvs: seq<KV>, kvHead: nat, d: nat, k: nat,
                                         m: Ext, m': real, a: real, values: seq<Vec>)
    requires IsExp(e) && k < |s| == |kvs| && AccOk(e, s[..k], Values(kvs, kvHead, d)[..k], m, a) && |values| == BLOCK
    requires forall i :: 0 <= i < BLOCK && k + i < |kvs| ==> values[i] == HeadOf(kvs[k + i].values, kvHead)
    ensures var top := AtMost(k + BLOCK, |kvs|);
      AccOk(e, s[..top], Values(kvs, kvHead, d)[..top], Fin(m'),
            Times(a, ExpOf(e, m, m')) + SumReal(Products(Probs(e, TileScores(s, k), m'), Lane(values, d))))
  {
    AccStep(e, s, Values(kvs, kvHead, d), k, m, m', a, Lane(values, d));
  }

  // -- the kernels --------------------------------------------------------------------------------------

  lemma {:induction false} EmptyState(e: real -> real, q: Vec, kvs: seq<KV>, kvHead: nat, scale: real, dim: nat)
    ensures StateOk(e, Scores(q, kvs, kvHead, scale, dim), AllValues(kvs, kvHead, dim), 0, NegInf, 0.0,
      seq(dim, d requires d >= 0 => 0.0))
  {
  }

  lemma {:induction false} BlocksCover(seqLen: nat, block: nat)
    ensures block < BlocksFor(BLOCK, seqLen) ==> block * BLOCK < seqLen
    ensures block == BlocksFor(BLOCK, seqLen) ==> AtMost(block * BLOCK, seqLen) == seqLen
  {
  }

  /** One program of the decode kernel: masking is applied to the scores only. */
  method PagedDecodeHead(e: real -> real, q: Vec, layer: Layer, table: seq<nat>, seqLen: nat, kvHead: nat, scale: real,
                         dim: nat)
    returns (out: Vec)
    requires IsExp(e) && seqLen >= 1
    ensures out == HeadAttention(e, q, Gather(layer, BLOCK, table, seqLen - 1), kvHead, scale, dim)
  {
    hide StateOk, Scores, AllValues, SumReal, Probs, MaskedScores, Accumulate, Gather;
    ghost var kvs := Gather(layer, BLOCK, table, seqLen - 1);
    ghost var s, vs := Scores(q, kvs, kvHead, scale, dim), AllValues(kvs, kvHead, dim);
    var m, l, acc := NegInf, 0.0, seq(dim, d requires d >= 0 => 0.0);
    EmptyState(e, q, kvs, kvHead, scale, dim);
    var block := 0;
    while block < BlocksFor(BLOCK, seqLen)
      invariant 0 <= block <= BlocksFor(BLOCK, seqLen)
      invariant StateOk(e, s, vs, AtMost(block * BLOCK, seqLen), m, l, acc)
    {
      var phys := PhysicalBlock(table, block);
      var keys, values := KeyTile(layer, phys, kvHead), ValueTile(layer, phys, kvHead);
      BlockIsTile(layer, table, seqLen, kvHead, block);
      BlocksCover(seqLen, block);
      StateStep(e, q, kvs, kvHead, scale, dim, block * BLOCK, m, l, acc, keys, values);
      var scores := MaskedScores(q, keys, block * BLOCK, seqLen, scale, dim);
      var newMax := MaxExt(m, TileMax(scores));
      var alpha, probs := ExpOf(e, m, newMax.value), Probs(e, scores, newMax.value);
      l := Times(l, alpha) + SumReal(probs);
      acc := Accumulate(acc, alpha, probs, values);
      m := newMax;
      block := block + 1;
    }
    BlocksCover(seqLen, block);
    Normalized(e, q, kvs, kvHead, scale, dim, m, l, acc);
    out := seq(dim, d requires 0 <= d < |acc| && l > 0.0 => acc[d] / l);
  }

  /** One program of the ragged kernel: key and value loads are masked too. */
  method RaggedHead(e: real -> real, q: Vec, layer: Layer, table: seq<nat>, position: nat, kvHead: nat, scale: real,
                    dim: nat)
    returns (out: Vec)
    requires IsExp(e)
    ensures out == HeadAttention(e, q, Gather(layer, BLOCK, table, position), kvHead, scale, dim)
  {
    hide StateOk, Scores, AllValues, SumReal, Probs, MaskedScores, Accumulate, MaskTile, Gather;
    var seqLen := position + 1;
    ghost var kvs := Gather(layer, BLOCK, table, position);
    ghost var s, vs := Scores(q, kvs, kvHead, scale, dim), AllValues(kvs, kvHead, dim);
    var m, l, acc := NegInf, 0.0, seq(dim, d requires d >= 0 => 0.0);
    EmptyState(e, q, kvs, kvHead, scale, dim);
    var block := 0;
    while block < BlocksFor(BLOCK, seqLen)
      invariant 0 <= block <= BlocksFor(BLOCK, seqLen)
      invariant StateOk(e, s, vs, AtMost(block * BLOCK, seqLen), m, l, acc)
    {
      BlocksCover(seqLen, block);
      var phys, valid := PhysicalBlock(table, block), seqLen - block * BLOCK;
      var keys := MaskTile(KeyTile(layer, phys, kvHead), valid);
      var values := MaskTile(ValueTile(layer, phys, kvHead), valid);
      BlockIsTile(layer, table, seqLen, kvHead, block);
      MaskedIsTile(kvs, kvHead, block * BLOCK, KeyTile(layer, phys, kvHead), ValueTile(layer, phys, kvHead), valid);
      StateStep(e, q, kvs, kvHead, scale, dim, block * BLOCK, m, l, acc, keys, values);
      var scores := MaskedScores(q, keys, block * BLOCK, seqLen, scale, dim);
      var newMax := MaxExt(m, TileMax(scores));
      var alpha, probs := ExpOf(e, m, newMax.value), Probs(e, scores, newMax.value);
      l := Times(l, alpha) + SumReal(probs);
      acc := Accumulate(acc, alpha, probs, values);
      m := newMax;
      block := block + 1;
    }
    BlocksCover(seqLen, block);
    Normalized(e, q, kvs, kvHead, scale, dim, m, l, acc);
    out := seq(dim, d requires 0 <= d < |acc| && l > 0.0 => acc[d] / l);
  }

  /** All heads of one query over one history, concatenated; query head `h` reads KV head `h / group`. */
  function Attention(e: real -> real, q: seq<Vec>, kvs: seq<KV>, group: Positive, scale: real, dim: nat): Vec {
    if q == [] then [] else
    var h := |q| - 1;
    Attention(e, q[..h], kvs, group, scale, dim) + HeadAttention(e, q[h], kvs, h / group, scale, dim)
  }

  /**
   * The ragged launch over all (token, head) programs: row `t` is the attention of token `t` over positions
   * 0..positions[t] of its own sequence, read through its block table.
   */
  method RaggedAttention(e: real -> real, queries: seq<seq<Vec>>, layer: Layer, b: Tensors, group: Positive,
                         scale: real, dim: nat)
    returns (out: seq<Vec>)
    requires IsExp(e) && b.Shaped() && |queries| == |b.inputIds|
    ensures |out| == |queries|
    ensures forall t :: 0 <= t < |queries| ==>
      out[t] == Attention(e, queries[t], Gather(layer, BLOCK, b.blockTables[b.seqIds[t]], b.positions[t]), group, scale,
        dim)
  {
    out := [];
    for t := 0 to |queries|
      invariant |out| == t
      invariant forall u :: 0 <= u < t ==>
        out[u] == Attention(e, queries[u], Gather(layer, BLOCK, b.blockTables[b.seqIds[u]], b.positions[u]), group,
          scale, dim)
    {
      var table := b.blockTables[b.seqIds[t]];
      ghost var kvs := Gather(layer, BLOCK, table, b.positions[t]);
      var row: Vec := [];
      for h := 0 to |queries[t]|
        invariant row == Attention(e, queries[t][..h], kvs, group, scale, dim)
      {
        var head := RaggedHead(e, queries[t][h], layer, table, b.positions[t], h / group, scale, dim);
        assert queries[t][..h + 1][..h] == queries[t][..h];
        row := row + head;
      }
      assert queries[t][..|queries[t]|] == queries[t];
      out := out + [row];
    }
  }

  // -- the torch reference ------------------------------------------------------------------------------------

  /** Softmax probabilities over all gathered keys, masked ones included, times the values. */
  function MaskedRow(e: real -> real, q: Vec, kvs: seq<KV>, allowed: nat, kvHead: nat, scale: real, dim: nat): Vec {
    var keys := seq(|kvs|, j requires 0 <= j < |kvs| => HeadOf(kvs[j].keys, kvHead));
    var scores := MaskedScores(q, keys, 0, allowed, scale, dim);
    var top := TileMax(scores);
    var weights := Probs(e, scores, if top.Fin? then top.value else 0.0);
    seq(dim, d requires d >= 0 => SumReal(Products(Normalize(weights), Values(kvs, kvHead, d))))
  }

  function Normalize(weights: seq<real>): (r: seq<real>)
    ensures |r| == |weights|
  {
    var norm := SumReal(weights);
    seq(|weights|, i requires 0 <= i < |weights| => if norm == 0.0 then 0.0 else weights[i] / norm)
  }

  lemma {:induction false} NormalizedSum(weights: seq<real>, values: seq<real>, norm: real, shares: seq<real>)
    requires |weights| == |values| == |shares|
    requires forall i :: 0 <= i < |weights| ==> Times(shares[i], norm) == weights[i]
    ensures Times(SumReal(Products(shares, values)), norm) == SumReal(Products(weights, values))
  {
    if weights != [] {
      var n := |weights| - 1;
      NormalizedSum(weights[..n], values[..n], norm, shares[..n]);
      assert Products(shares, values)[..n] == Products(shares[..n], values[..n]);
      assert Products(weights, values)[..n] == Products(weights[..n], values[..n]);
      Share(SumReal(Products(shares[..n], values[..n])), shares[n], values[n], norm);
    }
  }

  lemma {:induction false} Share(a: real, s: real, v: real, norm: real)
    ensures Times(a + Times(s, v), norm) == Times(a, norm) + Times(Times(s, norm), v)
  {
  }

  lemma {:induction false} Quotient(a: real, b: real, norm: real)
    requires norm > 0.0 && Times(a, norm) == b
    ensures a == b / norm
  {
  }

  lemma {:induction false} Part(w: real, norm: real)
    requires norm > 0.0
    ensures Times(w / norm, norm) == w
  {
  }

  /** Masked scores peak at the peak of the allowed ones. */
  lemma {:induction false} MaskedMax(scores: seq<Ext>, s: seq<real>, n: nat)
    requires n <= |scores|
    requires forall i :: 0 <= i < |scores| ==> scores[i] == if i < |s| then Fin(s[i]) else NegInf
    ensures IsMaxExt(s[..AtMost(n, |s|)], TileMax(scores[..n]))
    decreases n
  {
    if n > 0 {
      MaskedMax(scores, s, n - 1);
      assert scores[..n][..n - 1] == scores[..n - 1];
      if n <= |s| {
        assert s[..n] == s[..n - 1] + [s[n - 1]];
        MaxSnoc(s[..n - 1], TileMax(scores[..n - 1]), s[n - 1]);
      }
    }
  }

  /** The causal mask over a longer view is attention over the prefix the row may see. */
  lemma {:induction false} MaskedRowIsPrefix(e: real -> real, q: Vec, kvs: seq<KV>, allowed: nat, kvHead: nat,
                                             scale: real, dim: nat)
    requires IsExp(e) && 0 < allowed <= |kvs|
    ensures MaskedRow(e, q, kvs, allowed, kvHead, scale, dim) == HeadAttention(e, q, kvs[..allowed], kvHead, scale, dim)
  {
    hide Plain, SumReal, Normalize, Products, SoftmaxAt, IsExp, Times, Dot;
    var keys := seq(|kvs|, j requires 0 <= j < |kvs| => HeadOf(kvs[j].keys, kvHead));
    var scores := MaskedScores(q, keys, 0, allowed, scale, dim);
    var s := Scores(q, kvs[..allowed], kvHead, scale, dim);
    MaskedMax(scores, s, |scores|);
    assert scores[..|scores|] == scores && s[..allowed] == s;
    var m := TileMax(scores).value;
    var weights := Probs(e, scores, m);
    TilePlain(e, s, 0, weights, m, |weights|);
    assert weights[..|weights|] == weights && s[0..allowed] == s;
    PlainPositive(e, s, m);
    forall d | 0 <= d < dim ensures MaskedRow(e, q, kvs, allowed, kvHead, scale, dim)[d] ==
                                    HeadAttention(e, q, kvs[..allowed], kvHead, scale, dim)[d] {
      MaskedComponent(e, s, kvs, allowed, kvHead, d, weights, m);
    }
  }

  lemma {:induction false} MaskedComponent(e: real -> real, s: seq<real>, kvs: seq<KV>, allowed: nat, kvHead: nat,
                                           d: nat, weights: seq<real>, m: real)
    requires IsExp(e) && 0 < allowed == |s| <= |kvs| == |weights| && LaneWeights(e, s, 0, weights, m)
    requires SumReal(weights) == Plain(e, s, m) > 0.0
    ensures SumReal(Products(Normalize(weights), Values(kvs, kvHead, d))) ==
      SoftmaxAt(e, s, Values(kvs[..allowed], kvHead, d))
  {
    var all, v := Values(kvs, kvHead, d), Values(kvs[..allowed], kvHead, d);
    Shares(weights, all);
    MaskedWeighted(e, s, v, weights, all, m);
    SoftmaxFrom(e, s, v, m);
  }

  lemma {:induction false} Shares(weights: seq<real>, values: seq<real>)
    requires |weights| == |values| && SumReal(weights) > 0.0
    ensures SumReal(Products(Normalize(weights), values)) == SumReal(Products(weights, values)) / SumReal(weights)
  {
    hide Times, SumReal, Products;
    var norm := SumReal(weights);
    forall i | 0 <= i < |weights| ensures Times(Normalize(weights)[i], norm) == weights[i] {
      Part(weights[i], norm);
    }
    NormalizedSum(weights, values, norm, Normalize(weights));
    Quotient(SumReal(Products(Normalize(weights), values)), SumReal(Products(weights, values)), norm);
  }

  lemma {:induction false} MaskedWeighted(e: real -> real, s: seq<real>, v: seq<real>, weights: seq<real>,
                                          values: seq<real>, m: real)
    requires |s| == |v| <= |weights| == |values| && LaneWeights(e, s, 0, weights, m)
    requires forall i :: 0 <= i < |s| ==> values[i] == v[i]
    ensures SumReal(Products(weights, values)) == Weighted(e, s, v, m)
  {
    TileWeighted(e, s, v, 0, weights, values, m, |weights|);
    assert Products(weights, values)[..|weights|] == Products(weights, values);
    assert s[0..|s|] == s && v[0..|s|] == v;
  }

  /** One request's rows: query `i` of the range sees positions 0..pastLen + i of the gathered view. */
  method ReferenceRows(e: real -> real, queries: seq<seq<Vec>>, view: seq<KV>, pastLen: nat, group: Positive,
                       scale: real, dim: nat)
    returns (out: seq<Vec>)
    requires IsExp(e) && pastLen + |queries| <= |view|
    ensures |out| == |queries|
    ensures forall i :: 0 <= i < |queries| ==>
      out[i] == Attention(e, queries[i], view[..pastLen + i + 1], group, scale, dim)
  {
    hide MaskedRow, HeadAttention;
    out := [];
    for i := 0 to |queries|
      invariant |out| == i
      invariant forall u :: 0 <= u < i ==> out[u] == Attention(e, queries[u], view[..pastLen + u + 1], group, scale,
        dim)
    {
      var row: Vec := [];
      for h := 0 to |queries[i]|
        invariant row == Attention(e, queries[i][..h], view[..pastLen + i + 1], group, scale, dim)
      {
        MaskedRowIsPrefix(e, queries[i][h], view, pastLen + i + 1, h / group, scale, dim);
        assert queries[i][..h + 1][..h] == queries[i][..h];
        row := row + MaskedRow(e, queries[i][h], view, pastLen + i + 1, h / group, scale, dim);
      }
      assert queries[i][..|queries[i]|] == queries[i];
      out := out + [row];
    }
  }

  /** The logical window `PagedKVCache.view` gathers. */
  function View(layer: Layer, size: Positive, table: seq<nat>, n: nat): (r: seq<KV>)
    ensures |r| == n
  {
    seq(n, j requires 0 <= j => Read(layer, Slot(size, table, j)))
  }

  /** A gathered view cut at a row's position is that row's history. */
  lemma {:induction false} ViewPrefix(layer: Layer, size: Positive, table: seq<nat>, n: nat, p: nat)
    requires p < n
    ensures View(layer, size, table, n)[..p + 1] == Gather(layer, size, table, p)
  {
  }

  /** Ranges and lengths of the packed plan, item by item. */
  lemma {:induction false} RangeOf(items: seq<BatchItem>, i: nat)
    requires i < |items|
    ensures var f := FlatOf(items);
      && |f.ranges| == |f.contextLens| == |f.finalLens| == |items|
      && f.ranges[i] == (TokenCount(items[..i]), TokenCount(items[..i]) + |items[i].tokens|)
      && f.contextLens[i] == items[i].start && f.finalLens[i] == items[i].End()
    decreases |items|
  {
    var n := |items| - 1;
    FlatLengths(items[..n]);
    if i < n {
      RangeOf(items[..n], i);
      assert items[..n][..i] == items[..i];
    }
  }

  lemma {:induction false} FlatLengths(items: seq<BatchItem>)
    ensures var f := FlatOf(items); |f.ranges| == |f.contextLens| == |f.finalLens| == |items|
  {
    if items != [] {
      FlatLengths(items[..|items| - 1]);
    }
  }

  lemma {:induction false} TokenCountPrefix(items: seq<BatchItem>, i: nat)
    requires i <= |items|
    ensures TokenCount(items[..i]) <= TokenCount(items)
    decreases |items|
  {
    if i == |items| {
      assert items[..i] == items;
    } else {
      assert items[..|items| - 1][..i] == items[..i];
      TokenCountPrefix(items[..|items| - 1], i);
    }
  }

  /** Each row's right answer, given its request and position. */
  ghost predicate RowsRight(e: real -> real, queries: seq<seq<Vec>>, layer: Layer, size: Positive,
                            tables: map<nat, seq<nat>>, f: Flat, out: seq<Vec>, group: Positive, scale: real,
                            dim: nat) {
    && |out| == |f.ids| == |f.positions| <= |queries|
    && forall t :: 0 <= t < |out| ==>
         out[t] == Attention(e, queries[t], Gather(layer, size, TableOf(tables, f.ids[t]), f.positions[t]), group,
           scale, dim)
  }

  lemma {:induction false} EmptyRows(e: real -> real, queries: seq<seq<Vec>>, layer: Layer, size: Positive,
                                     tables: map<nat, seq<nat>>, group: Positive, scale: real, dim: nat)
    ensures RowsRight(e, queries, layer, size, tables, FlatOf([]), [], group, scale, dim)
  {
  }

  lemma {:induction false} RowsRightSnoc(e: real -> real, queries: seq<seq<Vec>>, layer: Layer, size: Positive,
                                         tables: map<nat, seq<nat>>,
                      f: Flat, out: seq<Vec>, item: BatchItem, index: nat, rows: seq<Vec>, group: Positive, scale: real,
                        dim: nat)
    requires RowsRight(e, queries, layer, size, tables, f, out, group, scale, dim)
    requires |rows| == |item.tokens| && |out| + |rows| <= |queries|
    requires forall i :: 0 <= i < |rows| ==>
      rows[i] == Attention(e, queries[|out| + i],
        View(layer, size, TableOf(tables, item.id), item.End())[..item.start + i + 1], group, scale, dim)
    ensures RowsRight(e, queries, layer, size, tables, f.Add(item, index), out + rows, group, scale, dim)
  {
    forall i | 0 <= i < |rows|
      ensures rows[i] == Attention(e, queries[|out| + i], Gather(layer, size, TableOf(tables, item.id), item.start + i),
        group, scale, dim) {
      ViewPrefix(layer, size, TableOf(tables, item.id), item.End(), item.start + i);
    }
  }

  lemma {:induction false} FlatNext(items: seq<BatchItem>, index: nat)
    requires index < |items|
    ensures FlatOf(items[..index + 1]) == FlatOf(items[..index]).Add(items[index], index)
    ensures TokenCount(items[..index]) + |items[index].tokens| == TokenCount(items[..index + 1]) <= TokenCount(items)
  {
    assert items[..index + 1][..index] == items[..index];
    TokenCountPrefix(items, index + 1);
  }

  /** The torch reference over a packed plan: request by request, gather the view and apply the causal mask. */
  method ReferenceAttention(e: real -> real, queries: seq<seq<Vec>>, layer: Layer, size: Positive,
                            tables: map<nat, seq<nat>>, items: seq<BatchItem>, group: Positive, scale: real, dim: nat)
    returns (out: seq<Vec>)
    requires IsExp(e) && |queries| == TokenCount(items)
    ensures RowsRight(e, queries, layer, size, tables, FlatOf(items), out, group, scale, dim)
  {
    hide FlatOf, RowsRight, View;
    var f := FlatOf(items);
    FlatLengths(items);
    out := [];
    EmptyRows(e, queries, layer, size, tables, group, scale, dim);
    for index := 0 to |items|
      invariant RowsRight(e, queries, layer, size, tables, FlatOf(items[..index]), out, group, scale, dim)
      invariant |out| == TokenCount(items[..index])
    {
      RangeOf(items, index);
      FlatNext(items, index);
      var (start, end) := f.ranges[index];
      var view := View(layer, size, TableOf(tables, items[index].id), f.finalLens[index]);
      var rows := ReferenceRows(e, queries[start..end], view, f.contextLens[index], group, scale, dim);
      RowsRightSnoc(e, queries, layer, size, tables, FlatOf(items[..index]), out, items[index], index, rows, group,
        scale, dim);
      out := out + rows;
    }
    assert items[..|items|] == items;
  }

  /** Zero padding of the block-table row is never read. */
  lemma {:induction false} PaddedGather(layer: Layer, size: Positive, table: seq<nat>, width: nat, p: nat)
    requires BlocksFor(size, p + 1) <= |table|
    ensures Gather(layer, size, BlockRow(table, width), p) == Gather(layer, size, table, p)
  {
    forall j: nat | j <= p ensures Slot(size, BlockRow(table, width), j) == Slot(size, table, j) {
      PositionInTable(size, j, p + 1, |table|);
      BlockRowSlot(size, table, width, j);
    }
  }

  /** On a packed plan whose tables cover its tokens, the ragged kernel and the torch reference give the same rows. */
  method BackendsAgree(e: real -> real, queries: seq<seq<Vec>>, layer: Layer, tables: map<nat, seq<nat>>,
                       items: seq<BatchItem>, width: nat, group: Positive, scale: real, dim: nat)
    returns (kernel: seq<Vec>, reference: seq<Vec>)
    requires IsExp(e) && |queries| == TokenCount(items)
    requires forall i :: 0 <= i < |items| ==> BlocksFor(BLOCK, items[i].End()) <= |TableOf(tables, items[i].id)|
    ensures kernel == reference
  {
    var b := TensorsOf(BLOCK, tables, items, width);
    kernel := RaggedAttention(e, queries, layer, b, group, scale, dim);
    reference := ReferenceAttention(e, queries, layer, BLOCK, tables, items, group, scale, dim);
    forall t | 0 <= t < |queries| ensures kernel[t] == reference[t] {
      FlatToken(items, t);
      var item := items[b.seqIds[t]];
      BlocksForMonotone(BLOCK, b.positions[t] + 1, item.End());
      PaddedGather(layer, BLOCK, TableOf(tables, item.id), width, b.positions[t]);
    }
  }

  // -- the paged forward on the kernel --------------------------------------------------------------

  /** The model whose attention is softmax over scaled dot products. */
  function SoftmaxModel(m: Model, e: real -> real, group: Positive, scale: real, dim: nat): Model {
    m.(attend := (q: seq<Vec>, kvs: seq<KV>) => Attention(e, q, kvs, group, scale, dim))
  }

  /** One layer with the kernel in the place of attention. */
  method KernelLayer(m: Model, e: real -> real, group: Positive, scale: real, dim: nat, b: Tensors, l: nat,
                     hidden: seq<Vec>, layer: Layer)
    returns (mixed: seq<Vec>, after: Layer)
    requires IsExp(e) && b.Shaped() && |hidden| == |b.inputIds|
    ensures |mixed| == |hidden|
    ensures var k := SoftmaxModel(m, e, group, scale, dim);
      after == AppendSlots(layer, b.slots, Projected(k, b, l, hidden)) && mixed == Mixed(k, BLOCK, b, l, hidden, after)
  {
    hide Attention, Gather, AppendSlots;
    var kvs := Projected(m, b, l, hidden);
    after := Append(layer, b.slots, kvs);
    var queries := seq(|hidden|, t requires 0 <= t < |hidden| &&
      |hidden| == |b.positions| => m.project(l, hidden[t], b.positions[t]).0);
    var attended := RaggedAttention(e, queries, after, b, group, scale, dim);
    mixed := seq(|hidden|, t requires 0 <= t < |hidden| && |attended| == |hidden| => m.mix(l, hidden[t], attended[t]));
    assert kvs == Projected(SoftmaxModel(m, e, group, scale, dim), b, l, hidden);
  }

  /**
   * The layer loop with the ragged kernel over the paged pools. On a well-packed batch every row comes out as the
   * full, uncached recompute with softmax attention would leave it.
   */
  method KernelForward(m: Model, e: real -> real, group: Positive, scale: real, dim: nat, b: Tensors,
                       pool: array<Layer>, ghost rows: seq<Row>)
    returns (hidden: seq<Vec>)
    requires IsExp(e) && b.Shaped() && pool.Length == m.layers
    requires Runnable(SoftmaxModel(m, e, group, scale, dim), BLOCK, pool[..], b, rows)
    modifies pool
    ensures Pass(pool[..], hidden) == Layers(SoftmaxModel(m, e, group, scale, dim), BLOCK, b, old(pool[..]), m.layers)
    ensures HiddenRight(SoftmaxModel(m, e, group, scale, dim), rows, hidden, m.layers)
  {
    hide IsExp, Runnable, HiddenRight, AppendSlots, Projected, Mixed, Attention;
    ghost var k := SoftmaxModel(m, e, group, scale, dim);
    PackedEqualsRecompute(k, BLOCK, pool[..], b, rows, m.layers);
    hidden := Embedded(m, b);
    var l := 0;
    while l < m.layers
      invariant 0 <= l <= m.layers && |hidden| == |b.inputIds|
      invariant Pass(pool[..], hidden) == Layers(k, BLOCK, b, old(pool[..]), l)
    {
      ghost var before := pool[..];
      var mixed, layer := KernelLayer(m, e, group, scale, dim, b, l, hidden, pool[l]);
      pool[l] := layer;
      assert pool[..] == before[l := layer];
      hidden := mixed;
      l := l + 1;
    }
  }
}
