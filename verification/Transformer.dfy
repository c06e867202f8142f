/** The causal model as uninterpreted per-token functions, and the recompute-everything reference runner. */
module Transformer {
  import opened Lists

  type Token = int

  type Vec = seq<real>

  /** What the pools keep of one token at one layer: a key and a value vector per KV head. */
  datatype KV = KV(keys: seq<Vec>, values: seq<Vec>)

  /**
   * `project` is the input norm, the q/k/v projections and the rotation at a position; `attend` is the
   * attention of one query over the keys and values of positions 0..p; `mix` closes the layer (output
   * projection, residuals, MLP); `pick` is the final norm, the output matrix and the argmax.
   */
  datatype Model = Model(
    layers: nat,
    embed: Token -> Vec,
    project: (nat, Vec, nat) -> (seq<Vec>, KV),
    attend: (seq<Vec>, seq<KV>) -> Vec,
    mix: (nat, Vec, Vec) -> Vec,
    pick: Vec -> Token)

  /** The input of layer `l` at position `p` when all of `toks` is recomputed. */
  function Hidden(m: Model, toks: seq<Token>, l: nat, p: nat): Vec
    requires p < |toks|
    decreases l, 0
  {
    if l == 0 then m.embed(toks[p]) else
    var h := Hidden(m, toks, l - 1, p);
    m.mix(l - 1, h, m.attend(m.project(l - 1, h, p).0, History(m, toks, l - 1, p)))
  }

  /** Keys and values of positions 0..p at layer `l`. */
  function History(m: Model, toks: seq<Token>, l: nat, p: nat): seq<KV>
    requires p < |toks|
    decreases l, 2
  {
    seq(p + 1, j requires 0 <= j <= p => KVAt(m, toks, l, j))
  }

  function KVAt(m: Model, toks: seq<Token>, l: nat, p: nat): KV
    requires p < |toks|
    decreases l, 1
  {
    m.project(l, Hidden(m, toks, l, p), p).1
  }

  /** Causality: position `p` depends on the tokens up to `p` only. */
  lemma {:induction false} HiddenPrefix(m: Model, a: seq<Token>, b: seq<Token>, l: nat, p: nat)
    requires p < |a| && p < |b| && a[..p + 1] == b[..p + 1]
    ensures Hidden(m, a, l, p) == Hidden(m, b, l, p)
    decreases l
  {
    assert a[p] == a[..p + 1][p] == b[p];
    if l > 0 {
      var k := l - 1;
      HiddenPrefix(m, a, b, k, p);
      forall j | 0 <= j <= p ensures KVAt(m, a, k, j) == KVAt(m, b, k, j) {
        assert a[..j + 1] == a[..p + 1][..j + 1] == b[..j + 1];
        HiddenPrefix(m, a, b, k, j);
      }
      assert History(m, a, k, p) == History(m, b, k, p);
    }
  }

  lemma {:induction false} KVPrefix(m: Model, a: seq<Token>, b: seq<Token>, l: nat, p: nat)
    requires p < |a| && p < |b| && a[..p + 1] == b[..p + 1]
    ensures KVAt(m, a, l, p) == KVAt(m, b, l, p)
  {
    HiddenPrefix(m, a, b, l, p);
  }

  /** The greedy next token of a full recompute. */
  function Next(m: Model, toks: seq<Token>): Token
    requires toks != []
  {
    m.pick(Hidden(m, toks, m.layers, |toks| - 1))
  }

  /** The first `n` tokens of the greedy continuation of a prompt, without any stopping rule. */
  function Greedy(m: Model, prompt: seq<Token>, n: nat): (g: seq<Token>)
    requires prompt != []
    ensures |g| == n
  {
    if n == 0 then [] else
    var g := Greedy(m, prompt, n - 1);
    g + [Next(m, prompt + g)]
  }

  lemma {:induction false} GreedyPrefix(m: Model, prompt: seq<Token>, k: nat, n: nat)
    requires prompt != [] && k <= n
    ensures Greedy(m, prompt, n)[..k] == Greedy(m, prompt, k)
    decreases n - k
  {
    if k < n {
      GreedyPrefix(m, prompt, k + 1, n);
      assert Greedy(m, prompt, n)[..k] == Greedy(m, prompt, n)[..k + 1][..k];
    }
  }

  /** Generation stops at the end-of-sequence token, or once `maxOut` tokens are out (at least one always is). */
  predicate Stops(generated: seq<Token>, eos: Option<Token>, maxOut: int) {
    generated != [] && (eos == Some(generated[|generated| - 1]) || |generated| >= maxOut)
  }

  /** The whole answer the reference runner gives a prompt on its own, having said `said` so far. */
  function AnswerFrom(m: Model, prompt: seq<Token>, eos: Option<Token>, maxOut: int, said: seq<Token>): seq<Token>
    requires prompt != []
    decreases if maxOut > |said| then maxOut - |said| else 0
  {
    var g := said + [Next(m, prompt + said)];
    if Stops(g, eos, maxOut) then g else AnswerFrom(m, prompt, eos, maxOut, g)
  }

  function Answer(m: Model, prompt: seq<Token>, eos: Option<Token>, maxOut: int): seq<Token>
    requires prompt != []
  {
    AnswerFrom(m, prompt, eos, maxOut, [])
  }

  /** No stop has been reached strictly before the end of `generated`. */
  ghost predicate NoEarlyStop(generated: seq<Token>, eos: Option<Token>, maxOut: int) {
    forall k :: 0 < k < |generated| ==> !Stops(generated[..k], eos, maxOut)
  }

  /** Greedy tokens with no earlier stop are on the way to the answer. */
  lemma {:induction false} OnTheWay(m: Model, prompt: seq<Token>, eos: Option<Token>, maxOut: int, g: seq<Token>)
    requires prompt != [] && g == Greedy(m, prompt, |g|) && NoEarlyStop(g, eos, maxOut) && !Stops(g, eos, maxOut)
    ensures Answer(m, prompt, eos, maxOut) == AnswerFrom(m, prompt, eos, maxOut, g)
    decreases |g|
  {
    if g != [] {
      var init := g[..|g| - 1];
      assert init == Greedy(m, prompt, |g| - 1);
      assert forall k :: 0 < k < |init| ==> init[..k] == g[..k];
      OnTheWay(m, prompt, eos, maxOut, init);
      assert g == init + [Next(m, prompt + init)];
    }
  }

  lemma {:induction false} AnswerExtends(m: Model, prompt: seq<Token>, eos: Option<Token>, maxOut: int, g: seq<Token>)
    requires prompt != []
    ensures g <= AnswerFrom(m, prompt, eos, maxOut, g)
    decreases if maxOut > |g| then maxOut - |g| else 0
  {
    var h := g + [Next(m, prompt + g)];
    if !Stops(h, eos, maxOut) {
      AnswerExtends(m, prompt, eos, maxOut, h);
    }
  }

  /** Greedy tokens with no earlier stop are a prefix of the answer, and all of it once they stop. */
  lemma {:induction false} AnswerSoFar(m: Model, prompt: seq<Token>, eos: Option<Token>, maxOut: int, g: seq<Token>)
    requires prompt != [] && g == Greedy(m, prompt, |g|) && NoEarlyStop(g, eos, maxOut)
    ensures g <= Answer(m, prompt, eos, maxOut)
    ensures Stops(g, eos, maxOut) ==> g == Answer(m, prompt, eos, maxOut)
  {
    if Stops(g, eos, maxOut) {
      var init := g[..|g| - 1];
      assert init == Greedy(m, prompt, |g| - 1);
      assert forall k :: 0 < k < |init| ==> init[..k] == g[..k];
      OnTheWay(m, prompt, eos, maxOut, init);
      assert g == init + [Next(m, prompt + init)];
    } else {
      OnTheWay(m, prompt, eos, maxOut, g);
      AnswerExtends(m, prompt, eos, maxOut, g);
    }
  }

  lemma {:induction false} HistoryOf(m: Model, ids: seq<Token>, l: nat, p: nat, kvs: seq<KV>)
    requires p < |ids| == |kvs| && forall j :: 0 <= j <= p ==> kvs[j] == KVAt(m, ids, l, j)
    ensures kvs[..p + 1] == History(m, ids, l, p)
  {
  }

  /** The layer loop of the model without a cache: attention over the tokens of this very call. */
  method RecomputeForward(m: Model, ids: seq<Token>) returns (hidden: seq<Vec>)
    ensures |hidden| == |ids|
    ensures forall p :: 0 <= p < |ids| ==> hidden[p] == Hidden(m, ids, m.layers, p)
  {
    hidden := seq(|ids|, p requires 0 <= p < |ids| => m.embed(ids[p]));
    var l := 0;
    while l < m.layers
      invariant 0 <= l <= m.layers && |hidden| == |ids|
      invariant forall p :: 0 <= p < |ids| ==> hidden[p] == Hidden(m, ids, l, p)
    {
      var projected := seq(|ids|, p requires 0 <= p < |hidden| => m.project(l, hidden[p], p));
      var kvs := seq(|ids|, p requires 0 <= p < |projected| => projected[p].1);
      forall p | 0 <= p < |ids| ensures kvs[..p + 1] == History(m, ids, l, p) {
        HistoryOf(m, ids, l, p, kvs);
      }
      hidden := seq(|ids|, p requires 0 <= p < |ids| && |hidden| == |kvs| == |projected| == |ids| =>
        m.mix(l, hidden[p], m.attend(projected[p].0, kvs[..p + 1])));
      l := l + 1;
    }
  }

  /** Recompute-everything generation, one full forward per token. */
  class NaiveRunner {
    const model: Model
    const prompt: seq<Token>
    var generated: seq<Token>
    var fed: nat

    constructor (m: Model, promptTokens: seq<Token>)
      requires promptTokens != []
      ensures model == m && prompt == promptTokens && generated == [] && fed == 0
    {
      model, prompt, generated, fed := m, promptTokens, [], 0;
    }

    /** One step; the exact-arithmetic top-two gap makes the near-tie replay a no-op. */
    method Step() returns (token: Token)
      requires prompt != [] && fed == |generated| && generated == Greedy(model, prompt, fed)
      modifies this
      ensures fed == |generated| == old(fed) + 1
      ensures generated == Greedy(model, prompt, fed)
      ensures token == generated[old(fed)]
    {
      var ids := prompt;
      if fed > 0 {
        ids := ids + generated[..fed];
      }
      assert ids == prompt + generated;
      var hidden := RecomputeForward(model, ids);
      token := model.pick(hidden[|hidden| - 1]);
      generated := generated + [token];
      fed := fed + 1;
    }
  }

  /** Serving one prompt with the reference runner gives the answer. */
  method ServeNaively(m: Model, prompt: seq<Token>, eos: Option<Token>, maxOut: int) returns (answer: seq<Token>)
    requires prompt != []
    ensures answer == Answer(m, prompt, eos, maxOut)
  {
    var runner := new NaiveRunner(m, prompt);
    var token := runner.Step();
    while !(eos == Some(token) || |runner.generated| >= maxOut)
      invariant fresh(runner) && runner.model == m && runner.prompt == prompt
      invariant runner.generated != [] && token == runner.generated[|runner.generated| - 1]
      invariant runner.fed == |runner.generated| && runner.generated == Greedy(m, prompt, runner.fed)
      invariant NoEarlyStop(runner.generated, eos, maxOut)
      decreases maxOut - |runner.generated|
    {
      ghost var before := runner.generated;
      token := runner.Step();
      GreedyPrefix(m, prompt, |before|, |before| + 1);
      assert runner.generated[..|before|] == before;
      forall k | 0 < k < |runner.generated| ensures !Stops(runner.generated[..k], eos, maxOut) {
        assert k < |before| ==> runner.generated[..k] == before[..k];
      }
    }
    AnswerSoFar(m, prompt, eos, maxOut, runner.generated);
    answer := runner.generated;
  }
}
