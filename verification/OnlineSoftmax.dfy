/** The paged attention kernels over exact reals: 16-key tiles, a running maximum, and rescaled running sums. */
module OnlineSoftmax {
  import opened Transformer
  import opened KvCache
  import opened PackedForward

  ghost predicate Homomorphic(e: real -> real, a: real, b: real) {
    e(a + b) == e(a) * e(b)
  }

  ghost predicate PositiveAt(e: real -> real, a: real) {
    e(a) > 0.0
  }

  /** All the kernels need of the exponential. */
  ghost predicate IsExp(e: real -> real) {
    (forall a, b :: Homomorphic(e, a, b)) && forall a :: PositiveAt(e, a)
  }

  /** A score, or minus infinity for a masked lane or an empty running maximum. */
  datatype Ext = NegInf | Fin(value: real)

  function MaxExt(a: Ext, b: Ext): Ext {
    if a.NegInf? then b else if b.NegInf? then a else if a.value >= b.value then a else b
  }

  function TileMax(scores: seq<Ext>): Ext {
    if scores == [] then NegInf else MaxExt(TileMax(scores[..|scores| - 1]), scores[|scores| - 1])
  }

  /** exp(x - m) for a finite m. */
  function ExpOf(e: real -> real, x: Ext, m: real): real {
    if x.NegInf? then 0.0 else e(x.value - m)
  }

  function SumReal(xs: seq<real>): real {
    if xs == [] then 0.0 else SumReal(xs[..|xs| - 1]) + xs[|xs| - 1]
  }

  function Component(v: Vec, d: nat): real {
    if d < |v| then v[d] else 0.0
  }

  function Dot(q: Vec, k: Vec, dim: nat): real {
    if dim == 0 then 0.0 else Dot(q, k, dim - 1) + Component(q, dim - 1) * Component(k, dim - 1)
  }

  function HeadOf(heads: seq<Vec>, h: nat): Vec {
    if h < |heads| then heads[h] else []
  }

  // -- plain softmax attention ----------------------------------------------------------------

  /** Sum of exp(score - m). */
  function Plain(e: real -> real, s: seq<real>, m: real): real {
    if s == [] then 0.0 else Plain(e, s[..|s| - 1], m) + e(s[|s| - 1] - m)
  }

  /** Sum of exp(score - m) * value. */
  function Weighted(e: real -> real, s: seq<real>, v: seq<real>, m: real): real
    requires |s| == |v|
  {
    if s == [] then 0.0 else
    Weighted(e, s[..|s| - 1], v[..|v| - 1], m) + Times(e(s[|s| - 1] - m), v[|v| - 1])
  }

  lemma {:induction false} PlainPositive(e: real -> real, s: seq<real>, m: real)
    requires IsExp(e)
    ensures Plain(e, s, m) >= 0.0 && (s != [] ==> Plain(e, s, m) > 0.0)
  {
    if s != [] {
      PlainPositive(e, s[..|s| - 1], m);
      assert PositiveAt(e, s[|s| - 1] - m);
    }
  }

  /** One component of softmax(scores) applied to values. */
  function SoftmaxAt(e: real -> real, s: seq<real>, v: seq<real>): real
    requires |s| == |v|
  {
    var norm := Plain(e, s, 0.0);
    if norm == 0.0 then 0.0 else Weighted(e, s, v, 0.0) / norm
  }

  /** Moving the reference point rescales both sums by the same factor. */
  lemma {:induction false} Rescale(e: real -> real, s: seq<real>, v: seq<real>, m: real, m': real)
    requires IsExp(e) && |s| == |v|
    ensures Plain(e, s, m') == Times(Plain(e, s, m), e(m - m'))
    ensures Weighted(e, s, v, m') == Times(Weighted(e, s, v, m), e(m - m'))
  {
    if s != [] {
      var n := |s| - 1;
      Rescale(e, s[..n], v[..n], m, m');
      assert Homomorphic(e, s[n] - m, m - m');
      assert (s[n] - m) + (m - m') == s[n] - m';
      Distribute(Plain(e, s[..n], m), e(s[n] - m), 1.0, e(m - m'));
      Distribute(Weighted(e, s[..n], v[..n], m), e(s[n] - m), v[n], e(m - m'));
    }
  }

  lemma {:induction false} Distribute(a: real, b: real, c: real, x: real)
    ensures (a + b * c) * x == a * x + (b * x) * c
  {
  }

  /** The normalized result does not depend on the reference point. */
  lemma {:induction false} SoftmaxFrom(e: real -> real, s: seq<real>, v: seq<real>, m: real)
    requires IsExp(e) && |s| == |v| && s != []
    ensures Plain(e, s, m) > 0.0 && SoftmaxAt(e, s, v) == Weighted(e, s, v, m) / Plain(e, s, m)
  {
    PlainPositive(e, s, m);
    PlainPositive(e, s, 0.0);
    Rescale(e, s, v, m, 0.0);
    assert PositiveAt(e, m - 0.0);
    CancelFactor(Weighted(e, s, v, m), Plain(e, s, m), e(m - 0.0));
  }

  lemma {:induction false} CancelFactor(a: real, b: real, x: real)
    requires b > 0.0 && x > 0.0
    ensures b * x > 0.0 && (a * x) / (b * x) == a / b
  {
    var q := a / b;
    assert q * b == a;
    assert q * (b * x) == a * x by {
      assert q * (b * x) == (q * b) * x;
    }
  }

  // -- one tile ---------------------------------------------------------------------------------

  /** The tile's scores: lanes at or beyond the sequence length are minus infinity. */
  function TileScores(s: seq<real>, base: nat): seq<Ext> {
    seq(BLOCK, i requires 0 <= i => if base + i < |s| then Fin(s[base + i]) else NegInf)
  }

  lemma {:induction false} ConcatSums(e: real -> real, s: seq<real>, v: seq<real>, s': seq<real>, v': seq<real>,
                                      m: real)
    requires |s| == |v| && |s'| == |v'|
    ensures Plain(e, s + s', m) == Plain(e, s, m) + Plain(e, s', m)
    ensures Weighted(e, s + s', v + v', m) == Weighted(e, s, v, m) + Weighted(e, s', v', m)
  {
    if s' == [] {
      assert s + s' == s && v + v' == v;
    } else {
      var n := |s'| - 1;
      assert (s + s')[..|s + s'| - 1] == s + s'[..n] && (v + v')[..|v + v'| - 1] == v + v'[..n];
      ConcatSums(e, s, v, s'[..n], v'[..n], m);
    }
  }

  function AtMost(n: nat, cap: nat): nat {
    if n <= cap then n else cap
  }

  /** Lane weights: exp(score - m) on valid lanes, zero on masked ones. */
  ghost predicate LaneWeights(e: real -> real, s: seq<real>, base: nat, probs: seq<real>, m: real) {
    forall i :: 0 <= i < |probs| ==> probs[i] == if base + i < |s| then e(s[base + i] - m) else 0.0
  }

  /** Summing the lanes of a tile sums the valid keys. */
  lemma {:induction false} TilePlain(e: real -> real, s: seq<real>, base: nat, probs: seq<real>, m: real, n: nat)
    requires base <= |s| && n <= |probs| && LaneWeights(e, s, base, probs, m)
    ensures SumReal(probs[..n]) == Plain(e, s[base..AtMost(base + n, |s|)], m)
    decreases n
  {
    if n > 0 {
      TilePlain(e, s, base, probs, m, n - 1);
      var top := AtMost(base + n, |s|);
      assert probs[..n][..n - 1] == probs[..n - 1];
      if base + n <= |s| {
        assert s[base..top][..n - 1] == s[base..top - 1];
      }
    }
  }

  /** The same for weighted values: whatever a masked lane's value is, its weight is zero. */
  lemma {:induction false} TileWeighted(e: real -> real, s: seq<real>, v: seq<real>, base: nat, probs: seq<real>,
                                        values: seq<real>, m: real, n: nat)
    requires |s| == |v| && base <= |s| && n <= |probs| == |values| && LaneWeights(e, s, base, probs, m)
    requires forall i :: 0 <= i < |probs| && base + i < |s| ==> values[i] == v[base + i]
    ensures var top := AtMost(base + n, |s|);
      SumReal(Products(probs, values)[..n]) == Weighted(e, s[base..top], v[base..top], m)
    decreases n
  {
    hide Times, Products;
    if n == 0 {
      assert Products(probs, values)[..0] == [] && s[base..base] == [];
    } else {
      hide SumReal, Weighted;
      TileWeighted(e, s, v, base, probs, values, m, n - 1);
      LastProduct(probs, values, n);
      if base + n <= |s| {
        LastWeighted(e, s, v, base, base + n, m);
      } else {
        NoWeight(values[n - 1]);
      }
    }
  }

  lemma {:induction false} LastProduct(probs: seq<real>, values: seq<real>, n: nat)
    requires 0 < n <= |probs| == |values|
    ensures SumReal(Products(probs, values)[..n]) == SumReal(Products(probs, values)[..n - 1]) +
      Times(probs[n - 1], values[n - 1])
  {
    hide Times;
    assert Products(probs, values)[..n][..n - 1] == Products(probs, values)[..n - 1];
  }

  lemma {:induction false} LastWeighted(e: real -> real, s: seq<real>, v: seq<real>, base: nat, top: nat, m: real)
    requires |s| == |v| && base < top <= |s|
    ensures Weighted(e, s[base..top], v[base..top], m) ==
            Weighted(e, s[base..top - 1], v[base..top - 1], m) + Times(e(s[top - 1] - m), v[top - 1])
  {
    hide Times;
    var n := top - base;
    assert s[base..top][..n - 1] == s[base..top - 1] && v[base..top][..n - 1] == v[base..top - 1];
  }

  lemma {:induction false} NoWeight(v: real)
    ensures Times(0.0, v) == 0.0
  {
  }

  function Products(a: seq<real>, b: seq<real>): (r: seq<real>)
    requires |a| == |b|
    ensures |r| == |a|
  {
    seq(|a|, i requires 0 <= i < |a| => Times(a[i], b[i]))
  }

  function Times(a: real, b: real): real {
    a * b
  }

  // -- the running state ----------------------------------------------------------------------------

  ghost predicate IsMax(s: seq<real>, m: real) {
    m in s && forall x :: x in s ==> x <= m
  }

  ghost predicate IsMaxExt(s: seq<real>, m: Ext) {
    if m.NegInf? then s == [] else IsMax(s, m.value)
  }

  lemma {:induction false} TileMaxFacts(s: seq<real>, base: nat, n: nat)
    requires base <= |s| && n <= BLOCK
    ensures IsMaxExt(s[base..AtMost(base + n, |s|)], TileMax(TileScores(s, base)[..n]))
    decreases n
  {
    if n > 0 {
      TileMaxFacts(s, base, n - 1);
      var t := TileScores(s, base);
      assert t[..n][..n - 1] == t[..n - 1];
      if base + n <= |s| {
        assert s[base..base + n] == s[base..base + n - 1] + [s[base + n - 1]];
        MaxSnoc(s[base..base + n - 1], TileMax(t[..n - 1]), s[base + n - 1]);
      }
    }
  }

  lemma {:induction false} MaxSnoc(s: seq<real>, m: Ext, x: real)
    requires IsMaxExt(s, m)
    ensures IsMaxExt(s + [x], MaxExt(m, Fin(x)))
  {
    assert (s + [x])[|s|] == x;
  }

  lemma {:induction false} MaxConcat(s: seq<real>, m: Ext, s': seq<real>, m': Ext)
    requires IsMaxExt(s, m) && IsMaxExt(s', m')
    ensures IsMaxExt(s + s', MaxExt(m, m'))
  {
  }

  lemma {:induction false} LaterPlain(e: real -> real, s: seq<real>, s': seq<real>, m: real, m': real)
    requires IsExp(e)
    ensures Plain(e, s + s', m') == Times(Plain(e, s, m), e(m - m')) + Plain(e, s', m')
  {
    ConcatSums(e, s, s, s', s', m');
    Rescale(e, s, s, m, m');
  }

  lemma {:induction false} LaterWeighted(e: real -> real, s: seq<real>, v: seq<real>, s': seq<real>, v': seq<real>,
                                         m: real, m': real)
    requires IsExp(e) && |s| == |v| && |s'| == |v'|
    ensures Weighted(e, s + s', v + v', m') == Times(Weighted(e, s, v, m), e(m - m')) + Weighted(e, s', v', m')
  {
    ConcatSums(e, s, v, s', v', m');
    Rescale(e, s, v, m, m');
  }

  lemma {:induction false} FirstTile(e: real -> real, s: seq<real>, v: seq<real>, s': seq<real>, v': seq<real>,
                                     m': real)
    requires |s| == |v| && |s'| == |v'| && s == []
    ensures Plain(e, s', m') == Plain(e, s + s', m') && Weighted(e, s', v', m') == Weighted(e, s + s', v + v', m')
  {
    assert s + s' == s' && v + v' == v';
  }

  /** The normalizer after one more tile. */
  lemma {:induction false} PlainStep(e: real -> real, s: seq<real>, s': seq<real>, m: Ext, m': real, l: real)
    requires IsExp(e)
    requires if m.NegInf? then s == [] && l == 0.0 else l == Plain(e, s, m.value)
    ensures Times(l, ExpOf(e, m, m')) + Plain(e, s', m') == Plain(e, s + s', m')
  {
    if m.NegInf? {
      FirstTile(e, s, s, s', s', m');
    } else {
      LaterPlain(e, s, s', m.value, m');
    }
  }

  /** One component of the accumulator after one more tile. */
  lemma {:induction false} WeightedStep(e: real -> real, s: seq<real>, v: seq<real>, s': seq<real>, v': seq<real>,
                                        m: Ext, m': real, a: real)
    requires IsExp(e) && |s| == |v| && |s'| == |v'|
    requires if m.NegInf? then s == [] && a == 0.0 else a == Weighted(e, s, v, m.value)
    ensures Times(a, ExpOf(e, m, m')) + Weighted(e, s', v', m') == Weighted(e, s + s', v + v', m')
  {
    hide Weighted;
    if m.NegInf? {
      FirstTile(e, s, v, s', v', m');
    } else {
      LaterWeighted(e, s, v, s', v', m.value, m');
    }
  }

  /** `m`, `l` and `acc` after the first `k` keys: running maximum, plain sum, weighted sums. */
  ghost predicate StateOk(e: real -> real, s: seq<real>, vs: seq<seq<real>>, k: nat, m: Ext, l: real, acc: seq<real>) {
    && k <= |s| && (forall d :: 0 <= d < |vs| ==> |vs[d]| == |s|) && |acc| == |vs|
    && IsMaxExt(s[..k], m) && NormOk(e, s[..k], m, l)
    && forall d :: 0 <= d < |vs| ==> AccOk(e, s[..k], vs[d][..k], m, acc[d])
  }

  ghost predicate NormOk(e: real -> real, s: seq<real>, m: Ext, l: real) {
    if m.NegInf? then s == [] && l == 0.0 else l == Plain(e, s, m.value)
  }

  ghost predicate AccOk(e: real -> real, s: seq<real>, v: seq<real>, m: Ext, a: real)
    requires |s| == |v|
  {
    if m.NegInf? then s == [] && a == 0.0 else a == Weighted(e, s, v, m.value)
  }

  /** The new running maximum is finite: every tile visited has a valid lane. */
  lemma {:induction false} TileMaxStep(s: seq<real>, k: nat, m: Ext)
    requires k < |s| && IsMaxExt(s[..k], m)
    ensures var m' := MaxExt(m, TileMax(TileScores(s, k)));
      m'.Fin? && IsMaxExt(s[..AtMost(k + BLOCK, |s|)], m')
  {
    var top := AtMost(k + BLOCK, |s|);
    TileMaxFacts(s, k, BLOCK);
    assert TileScores(s, k)[..BLOCK] == TileScores(s, k);
    MaxConcat(s[..k], m, s[k..top], TileMax(TileScores(s, k)));
    assert s[..k] + s[k..top] == s[..top];
  }

  function Probs(e: real -> real, scores: seq<Ext>, m: real): (r: seq<real>)
    ensures |r| == |scores|
  {
    seq(|scores|, i requires 0 <= i < |scores| => ExpOf(e, scores[i], m))
  }

  lemma {:induction false} NormStep(e: real -> real, s: seq<real>, k: nat, m: Ext, m': real, l: real)
    requires IsExp(e) && k < |s| && NormOk(e, s[..k], m, l)
    ensures NormOk(e, s[..AtMost(k + BLOCK, |s|)], Fin(m'), Times(l, ExpOf(e, m, m')) +
      SumReal(Probs(e, TileScores(s, k), m')))
  {
    hide Plain, SumReal;
    var top, probs := AtMost(k + BLOCK, |s|), Probs(e, TileScores(s, k), m');
    TilePlain(e, s, k, probs, m', BLOCK);
    assert probs[..BLOCK] == probs;
    PlainStep(e, s[..k], s[k..top], m, m', l);
    assert s[..k] + s[k..top] == s[..top];
  }

  lemma {:induction false} AccStep(e: real -> real, s: seq<real>, v: seq<real>, k: nat, m: Ext, m': real, a: real,
                                   values: seq<real>)
    requires IsExp(e) && k < |s| == |v| && AccOk(e, s[..k], v[..k], m, a) && |values| == BLOCK
    requires forall i :: 0 <= i < BLOCK && k + i < |s| ==> values[i] == v[k + i]
    ensures var top := AtMost(k + BLOCK, |s|);
      AccOk(e, s[..top], v[..top], Fin(m'), Times(a, ExpOf(e, m, m')) +
        SumReal(Products(Probs(e, TileScores(s, k), m'), values)))
  {
    hide SumReal, Weighted, Products;
    var top, probs := AtMost(k + BLOCK, |s|), Probs(e, TileScores(s, k), m');
    TileWeighted(e, s, v, k, probs, values, m', BLOCK);
    assert Products(probs, values)[..BLOCK] == Products(probs, values);
    WeightedStep(e, s[..k], v[..k], s[k..top], v[k..top], m, m', a);
    assert s[..k] + s[k..top] == s[..top] && v[..k] + v[k..top] == v[..top];
  }

  // -- attention over a history --------------------------------------------------------------------

  /** Scaled scores of one query head against the keys of a history. */
  function Scores(q: Vec, kvs: seq<KV>, kvHead: nat, scale: real, dim: nat): seq<real> {
    seq(|kvs|, j requires 0 <= j < |kvs| => Dot(q, HeadOf(kvs[j].keys, kvHead), dim) * scale)
  }

  function Values(kvs: seq<KV>, kvHead: nat, d: nat): seq<real> {
    seq(|kvs|, j requires 0 <= j < |kvs| => Component(HeadOf(kvs[j].values, kvHead), d))
  }

  /** Softmax attention of one query head over a whole history. */
  function HeadAttention(e: real -> real, q: Vec, kvs: seq<KV>, kvHead: nat, scale: real, dim: nat): (out: Vec)
    ensures |out| == dim
  {
    seq(dim, d requires 0 <= d => SoftmaxAt(e, Scores(q, kvs, kvHead, scale, dim), Values(kvs, kvHead, d)))
  }

  lemma {:induction false} GatherAt(layer: Layer, table: seq<nat>, p: nat, block: nat, i: nat)
    requires i < BLOCK && block * BLOCK + i <= p
    ensures Gather(layer, BLOCK, table, p)[block * BLOCK + i] == Read(layer, PhysicalBlock(table, block) * BLOCK + i)
  {
    MultipleOf(BLOCK, block, i);
  }

  function PhysicalBlock(table: seq<nat>, block: nat): nat {
    if block < |table| then table[block] else 0
  }

  /** What the loop hands over once every key has been seen. */
  lemma {:induction false} Normalized(e: real -> real, q: Vec, kvs: seq<KV>, kvHead: nat, scale: real, dim: nat, m: Ext,
                                      l: real, acc: seq<real>)
    requires IsExp(e) && kvs != []
    requires StateOk(e, Scores(q, kvs, kvHead, scale, dim), AllValues(kvs, kvHead, dim), |kvs|, m, l, acc)
    ensures l > 0.0 && |acc| == dim
    ensures forall d :: 0 <= d < dim ==> acc[d] / l == HeadAttention(e, q, kvs, kvHead, scale, dim)[d]
  {
    var s := Scores(q, kvs, kvHead, scale, dim);
    assert s[..|kvs|] == s;
    forall d | 0 <= d < dim ensures l > 0.0 && acc[d] / l == SoftmaxAt(e, s, Values(kvs, kvHead, d)) {
      var v := AllValues(kvs, kvHead, dim)[d];
      assert v[..|kvs|] == v && AccOk(e, s, v, m, acc[d]);
      SoftmaxFrom(e, s, v, m.value);
    }
    PlainPositive(e, s, m.value);
  }

  function AllValues(kvs: seq<KV>, kvHead: nat, dim: nat): seq<seq<real>> {
    seq(dim, d requires 0 <= d => Values(kvs, kvHead, d))
  }
}
