/** One forward pass over a flat batch: layer by layer, append to the slots, attend through the block tables. */
module PackedForward {
  import opened Lists
  import opened Transformer
  import opened KvCache

  /**
   * The device tensors of a packed batch, one entry per flat token: `seqIds[t]` is the row of token `t` in
   * `blockTables`, `slots[t]` the physical slot its KV goes to.
   */
  datatype Tensors = Tensors(
    inputIds: seq<Token>,
    positions: seq<nat>,
    seqIds: seq<nat>,
    blockTables: seq<seq<nat>>,
    slots: seq<nat>,
    logitIndices: seq<nat>)
  {
    predicate Shaped() {
      && |positions| == |seqIds| == |slots| == |inputIds|
      && forall t :: 0 <= t < |seqIds| ==> seqIds[t] < |blockTables|
    }
  }

  /** `index_copy_` along the slot axis. */
  function AppendSlots(layer: Layer, slots: seq<nat>, kvs: seq<KV>): (r: Layer)
    requires |slots| == |kvs|
    ensures |r| == |layer|
  {
    if slots == [] then layer else
    var n := |slots| - 1;
    var r := AppendSlots(layer, slots[..n], kvs[..n]);
    if slots[n] < |r| then r[slots[n] := kvs[n]] else r
  }

  /** Keys and values of positions 0..p read through a block table. */
  function Gather(layer: Layer, size: Positive, table: seq<nat>, p: nat): (r: seq<KV>)
    ensures |r| == p + 1
  {
    seq(p + 1, j requires 0 <= j <= p => Read(layer, Slot(size, table, j)))
  }

  datatype Pass = Pass(pool: seq<Layer>, hidden: seq<Vec>)

  function Embedded(m: Model, b: Tensors): seq<Vec> {
    seq(|b.inputIds|, t requires 0 <= t < |b.inputIds| => m.embed(b.inputIds[t]))
  }

  function Projected(m: Model, b: Tensors, l: nat, hidden: seq<Vec>): seq<KV>
    requires b.Shaped() && |hidden| == |b.inputIds|
  {
    seq(|hidden|, t requires 0 <= t < |hidden| => m.project(l, hidden[t], b.positions[t]).1)
  }

  function Mixed(m: Model, size: Positive, b: Tensors, l: nat, hidden: seq<Vec>, layer: Layer): seq<Vec>
    requires b.Shaped() && |hidden| == |b.inputIds|
  {
    seq(|hidden|, t requires 0 <= t < |hidden| =>
      m.mix(l, hidden[t], m.attend(m.project(l, hidden[t], b.positions[t]).0,
                                   Gather(layer, size, b.blockTables[b.seqIds[t]], b.positions[t]))))
  }

  function LayerPass(m: Model, size: Positive, b: Tensors, l: nat, s: Pass): Pass
    requires b.Shaped() && |s.hidden| == |b.inputIds| && l < |s.pool|
  {
    var layer := AppendSlots(s.pool[l], b.slots, Projected(m, b, l, s.hidden));
    Pass(s.pool[l := layer], Mixed(m, size, b, l, s.hidden, layer))
  }

  function Layers(m: Model, size: Positive, b: Tensors, pool: seq<Layer>, l: nat): (s: Pass)
    requires b.Shaped() && l <= |pool|
    ensures |s.pool| == |pool| && |s.hidden| == |b.inputIds|
  {
    if l == 0 then Pass(pool, Embedded(m, b)) else LayerPass(m, size, b, l - 1, Layers(m, size, b, pool, l - 1))
  }

  /** The model's layer loop over a packed batch; the pools are written in place, layer by layer. */
  method Forward(m: Model, size: Positive, b: Tensors, pool: array<Layer>) returns (hidden: seq<Vec>)
    requires b.Shaped() && pool.Length == m.layers
    modifies pool
    ensures Pass(pool[..], hidden) == Layers(m, size, b, old(pool[..]), m.layers)
  {
    hidden := Embedded(m, b);
    var l := 0;
    while l < m.layers
      invariant 0 <= l <= m.layers && |hidden| == |b.inputIds|
      invariant Pass(pool[..], hidden) == Layers(m, size, b, old(pool[..]), l)
    {
      var kvs := Projected(m, b, l, hidden);
      ghost var before := pool[..];
      var layer := Append(pool[l], b.slots, kvs);
      pool[l] := layer;
      assert pool[..] == before[l := layer];
      hidden := Mixed(m, size, b, l, hidden, layer);
      l := l + 1;
    }
  }

  /** `append_slots`, slot by slot. */
  method Append(layer: Layer, slots: seq<nat>, kvs: seq<KV>) returns (r: Layer)
    requires |slots| == |kvs|
    ensures r == AppendSlots(layer, slots, kvs)
  {
    r := layer;
    for t := 0 to |slots|
      invariant r == AppendSlots(layer, slots[..t], kvs[..t])
    {
      assert slots[..t + 1][..t] == slots[..t] && kvs[..t + 1][..t] == kvs[..t];
      if slots[t] < |r| {
        r := r[slots[t] := kvs[t]];
      }
    }
    assert slots[..|slots|] == slots && kvs[..|kvs|] == kvs;
  }

  // -- what a batch means --------------------------------------------------------

  /** A flat token: its request's tokens up to and including it, and its request's block table. */
  datatype Row = Row(hist: seq<Token>, table: seq<nat>) {
    function Position(): int {
      |hist| - 1
    }
  }

  /** The tensors say what the rows say. */
  ghost predicate Describes(size: Positive, b: Tensors, rows: seq<Row>) {
    && b.Shaped() && |rows| == |b.inputIds|
    && forall t :: 0 <= t < |rows| ==> DescribesRow(size, b, rows[t], t)
  }

  ghost predicate DescribesRow(size: Positive, b: Tensors, row: Row, t: nat)
    requires b.Shaped() && t < |b.inputIds|
  {
    && row.hist != []
    && b.inputIds[t] == row.hist[row.Position()]
    && b.positions[t] == row.Position()
    && b.slots[t] == Slot(size, row.table, row.Position())
    && forall j :: 0 <= j <= row.Position() ==> Slot(size, b.blockTables[b.seqIds[t]], j) == Slot(size, row.table, j)
  }

  /** A slot the batch writes and some row reads stands for the same token prefix on both sides. */
  ghost predicate NoClash(size: Positive, rows: seq<Row>) {
    forall t, u, j ::
      (&& 0 <= t < |rows| && 0 <= u < |rows| && 0 <= j < |rows[t].hist| && rows[u].hist != []
       && Slot(size, rows[u].table, rows[u].Position()) == Slot(size, rows[t].table, j)) ==>
      rows[u].hist == rows[t].hist[..j + 1]
  }

  ghost predicate WrittenSlot(size: Positive, rows: seq<Row>, slot: nat) {
    exists u :: 0 <= u < |rows| && rows[u].hist != [] && Slot(size, rows[u].table, rows[u].Position()) == slot
  }

  /** Everything a row reads is either fed by this very batch or already cached, at every layer. */
  ghost predicate Ready(m: Model, size: Positive, pool: seq<Layer>, rows: seq<Row>) {
    forall t, j :: 0 <= t < |rows| && 0 <= j < |rows[t].hist| ==>
      WrittenSlot(size, rows, Slot(size, rows[t].table, j)) || CachedAt(m, size, pool, rows[t], j)
  }

  ghost predicate CachedAt(m: Model, size: Positive, pool: seq<Layer>, row: Row, j: nat)
    requires j < |row.hist|
  {
    |pool| == m.layers && forall l :: 0 <= l < m.layers ==>
      Read(pool[l], Slot(size, row.table, j)) == KVAt(m, row.hist, l, j)
  }

  ghost predicate InPool(size: Positive, pool: seq<Layer>, rows: seq<Row>) {
    forall l, t :: 0 <= l < |pool| && 0 <= t < |rows| && rows[t].hist != [] ==>
      Slot(size, rows[t].table, rows[t].Position()) < |pool[l]|
  }

  ghost predicate Runnable(m: Model, size: Positive, pool: seq<Layer>, b: Tensors, rows: seq<Row>) {
    |pool| == m.layers && Describes(size, b, rows) && NoClash(size, rows) && Ready(m, size, pool, rows) &&
    InPool(size, pool, rows)
  }

  // -- correctness ------------------------------------------------------------------

  /** A slot not in the mapping keeps its content; one in it holds the last value written there. */
  lemma {:induction false} AppendSlotsAt(layer: Layer, slots: seq<nat>, kvs: seq<KV>, s: nat) returns (u: int)
    requires |slots| == |kvs| && s < |layer|
    ensures u == -1 ==> s !in slots && AppendSlots(layer, slots, kvs)[s] == layer[s]
    ensures u != -1 ==> 0 <= u < |slots| && slots[u] == s && AppendSlots(layer, slots, kvs)[s] == kvs[u]
  {
    if slots == [] {
      u := -1;
    } else {
      var n := |slots| - 1;
      assert slots == slots[..n] + [slots[n]];
      u := AppendSlotsAt(layer, slots[..n], kvs[..n], s);
      if slots[n] == s {
        u := n;
      }
    }
  }

  /** Hidden states of all rows are those of a full recompute, `l` layers in. */
  ghost predicate HiddenRight(m: Model, rows: seq<Row>, hidden: seq<Vec>, l: nat) {
    |hidden| == |rows| && forall t :: 0 <= t < |rows| ==>
      rows[t].hist != [] && hidden[t] == Hidden(m, rows[t].hist, l, rows[t].Position())
  }

  /** Layer `l` of the pool after the pass: fed slots hold the KV of their prefix, all others are untouched. */
  ghost predicate LayerRight(m: Model, size: Positive, rows: seq<Row>, before: Layer, after: Layer, l: nat) {
    && |after| == |before|
    && (forall t :: 0 <= t < |rows| && rows[t].hist != [] ==>
          Read(after, Slot(size, rows[t].table, rows[t].Position())) == KVAt(m, rows[t].hist, l, rows[t].Position()))
    && (forall s: nat :: !WrittenSlot(size, rows, s) ==> Read(after, s) == Read(before, s))
  }

  lemma {:induction false} AppendRight(m: Model, size: Positive, pool: seq<Layer>, b: Tensors, rows: seq<Row>, l: nat,
                                       hidden: seq<Vec>)
    requires Runnable(m, size, pool, b, rows) && l < m.layers && HiddenRight(m, rows, hidden, l)
    ensures LayerRight(m, size, rows, pool[l], AppendSlots(pool[l], b.slots, Projected(m, b, l, hidden)), l)
  {
    var kvs := Projected(m, b, l, hidden);
    var after := AppendSlots(pool[l], b.slots, kvs);
    assert forall t :: 0 <= t < |rows| ==> DescribesRow(size, b, rows[t], t);
    forall t | 0 <= t < |rows|
      ensures Read(after, Slot(size, rows[t].table, rows[t].Position())) ==
        KVAt(m, rows[t].hist, l, rows[t].Position()) {
      var s := Slot(size, rows[t].table, rows[t].Position());
      var u := AppendSlotsAt(pool[l], b.slots, kvs, s);
      assert b.slots[t] == s;
      assert rows[u].hist == rows[t].hist[..|rows[t].hist|];
    }
    forall s: nat | !WrittenSlot(size, rows, s) ensures Read(after, s) == Read(pool[l], s) {
      if s < |pool[l]| {
        var u := AppendSlotsAt(pool[l], b.slots, kvs, s);
      }
    }
  }

  /** Once layer `l` is written, every row reads exactly the history a full recompute would see. */
  lemma {:induction false} GatherRight(m: Model, size: Positive, pool: seq<Layer>, b: Tensors, rows: seq<Row>, l: nat,
                    after: Layer, t: nat)
    requires Runnable(m, size, pool, b, rows) && l < m.layers && t < |rows|
    requires LayerRight(m, size, rows, pool[l], after, l)
    ensures rows[t].hist != []
    ensures Gather(after, size, b.blockTables[b.seqIds[t]], b.positions[t]) ==
            History(m, rows[t].hist, l, rows[t].Position())
  {
    var row := rows[t];
    assert DescribesRow(size, b, row, t);
    forall j | 0 <= j <= row.Position()
      ensures Read(after, Slot(size, b.blockTables[b.seqIds[t]], j)) == KVAt(m, row.hist, l, j) {
      var s := Slot(size, row.table, j);
      assert Slot(size, b.blockTables[b.seqIds[t]], j) == s;
      if WrittenSlot(size, rows, s) {
        var u :| 0 <= u < |rows| && rows[u].hist != [] && Slot(size, rows[u].table, rows[u].Position()) == s;
        assert rows[u].hist == row.hist[..j + 1];
        assert rows[u].hist[..j + 1] == row.hist[..j + 1];
        KVPrefix(m, rows[u].hist, row.hist, l, j);
      } else {
        assert CachedAt(m, size, pool, row, j);
      }
    }
  }

  /**
   * The packed forward equals full recompute, for any number of layers: all hidden states are right, every
   * fed slot holds the KV of its own token prefix, and no other slot has changed.
   */
  lemma {:induction false} PackedEqualsRecompute(m: Model, size: Positive, pool: seq<Layer>, b: Tensors,
                                                 rows: seq<Row>, l: nat)
    requires Runnable(m, size, pool, b, rows) && l <= m.layers
    ensures var s := Layers(m, size, b, pool, l);
      && HiddenRight(m, rows, s.hidden, l)
      && (forall k :: 0 <= k < l ==> LayerRight(m, size, rows, pool[k], s.pool[k], k))
      && (forall k :: l <= k < m.layers ==> s.pool[k] == pool[k])
  {
    hide Ready, NoClash, InPool, WrittenSlot, KVAt, Gather, History;
    assert forall t :: 0 <= t < |rows| ==> DescribesRow(size, b, rows[t], t);
    if l > 0 {
      var k := l - 1;
      PackedEqualsRecompute(m, size, pool, b, rows, k);
      var s := Layers(m, size, b, pool, k);
      AppendRight(m, size, pool, b, rows, k, s.hidden);
      var after := AppendSlots(s.pool[k], b.slots, Projected(m, b, k, s.hidden));
      forall t | 0 <= t < |rows| ensures rows[t].hist != []
        ensures Mixed(m, size, b, k, s.hidden, after)[t] == Hidden(m, rows[t].hist, l, rows[t].Position()) {
        GatherRight(m, size, pool, b, rows, k, after, t);
      }
    }
  }

  /** A forward that stops part-way, at any layer and with any of the mapped slots overwritten by anything. */
  ghost predicate PartialForward(size: Positive, rows: seq<Row>, pool: seq<Layer>, pool': seq<Layer>) {
    |pool'| == |pool| && forall l :: 0 <= l < |pool| ==>
      |pool'[l]| == |pool[l]| && forall s: nat :: !WrittenSlot(size, rows, s) ==> Read(pool'[l], s) == Read(pool[l], s)
  }
}
