/** Packing a plan onto one flat token axis, with the block tables and slots its tokens are read and written at. */
module Packing {
  import opened Lists
  import opened Allocator
  import opened Transformer
  import opened KvCache
  import opened KvCacheValid
  import opened KvCacheContent
  import opened PackedForward

  /** One sequence's token slice in an iteration. */
  datatype BatchItem = BatchItem(id: nat, tokens: seq<Token>, start: nat, sample: bool, isDecode: bool) {
    function End(): nat {
      start + |tokens|
    }
  }

  function ItemIds(items: seq<BatchItem>): seq<nat> {
    seq(|items|, i requires 0 <= i < |items| => items[i].id)
  }

  /** `{item.request.request_id: item.end_pos for item in plan.items}`, in plan order. */
  function Required(items: seq<BatchItem>): seq<(nat, nat)> {
    seq(|items|, i requires 0 <= i < |items| => (items[i].id, items[i].End()))
  }

  function TokenCount(items: seq<BatchItem>): nat {
    if items == [] then 0 else TokenCount(items[..|items| - 1]) + |items[|items| - 1].tokens|
  }

  /** The lists the packing loop builds, after all of `items`. */
  datatype Flat = Flat(
    inputIds: seq<Token>,
    positions: seq<nat>,
    ids: seq<nat>,
    seqIds: seq<nat>,
    ranges: seq<(nat, nat)>,
    startLoc: seq<nat>,
    contextLens: seq<nat>,
    finalLens: seq<nat>,
    sampled: seq<nat>,
    logitIndices: seq<nat>)
  {
    /** One turn of the loop: `item` is number `index` of the plan. */
    function Add(item: BatchItem, index: nat): Flat {
      var first, last := |inputIds|, |inputIds| + |item.tokens|;
      Flat(
        inputIds + item.tokens,
        positions + seq(|item.tokens|, o requires 0 <= o => item.start + o),
        ids + seq(|item.tokens|, o => item.id),
        seqIds + seq(|item.tokens|, o => index),
        ranges + [(first, last)],
        startLoc + [last],
        contextLens + [item.start],
        finalLens + [item.End()],
        if item.sample then sampled + [item.id] else sampled,
        if item.sample then logitIndices + [if last == 0 then 0 else last - 1] else logitIndices)
    }
  }

  function FlatOf(items: seq<BatchItem>): (f: Flat)
    ensures |f.inputIds| == |f.positions| == |f.ids| == |f.seqIds| == TokenCount(items)
    ensures forall t :: 0 <= t < |f.seqIds| ==> f.seqIds[t] < |items|
  {
    if items == [] then Flat([], [], [], [], [], [0], [], [], [], []) else
    var n := |items| - 1;
    FlatOf(items[..n]).Add(items[n], n)
  }

  /** The physical slots of (request, position) pairs. */
  function SlotMapping(size: Positive, tables: map<nat, seq<nat>>, ids: seq<nat>, positions: seq<nat>): seq<nat>
    requires |ids| == |positions|
  {
    seq(|ids|, t requires 0 <= t < |ids| =>
      Slot(size, if ids[t] in tables then tables[ids[t]] else [], positions[t]))
  }

  function TableOf(tables: map<nat, seq<nat>>, id: nat): seq<nat> {
    if id in tables then tables[id] else []
  }

  /** A row of the zero-initialised block-table tensor. */
  function BlockRow(table: seq<nat>, width: nat): seq<nat> {
    if |table| <= width then table + seq(width - |table|, i => 0) else table
  }

  function BlockRows(tables: map<nat, seq<nat>>, items: seq<BatchItem>, width: nat): seq<seq<nat>> {
    seq(|items|, i requires 0 <= i < |items| => BlockRow(TableOf(tables, items[i].id), width))
  }

  function WidestTable(tables: map<nat, seq<nat>>, items: seq<BatchItem>): nat {
    if items == [] then 0 else
    Larger(WidestTable(tables, items[..|items| - 1]), |TableOf(tables, items[|items| - 1].id)|)
  }

  /** The fixed width of graph mode, else the widest table of the batch (1 when the batch is empty). */
  function Width(size: Positive, graph: bool, maxModelLen: nat, tables: map<nat, seq<nat>>,
                 items: seq<BatchItem>): nat {
    if graph then (maxModelLen + size - 1) / size
    else if items == [] then 1 else WidestTable(tables, items)
  }

  function TensorsOf(size: Positive, tables: map<nat, seq<nat>>, items: seq<BatchItem>, width: nat): (b: Tensors)
    ensures b.Shaped()
  {
    var f := FlatOf(items);
    Tensors(f.inputIds, f.positions, f.seqIds, BlockRows(tables, items, width),
            SlotMapping(size, tables, f.ids, f.positions), f.logitIndices)
  }

  // -- the rows of a packed plan ----------------------------------------------------

  /** An item is the slice `start..end` of what its request knows, and its table covers it. */
  ghost predicate ItemOk(size: Positive, tables: map<nat, seq<nat>>, hist: seq<seq<Token>>, item: BatchItem) {
    && item.id in tables && item.id < |hist|
    && item.End() <= |hist[item.id]| && item.tokens == hist[item.id][item.start..item.End()]
    && BlocksFor(size, item.End()) <= |tables[item.id]|
  }

  ghost predicate ItemsOk(size: Positive, tables: map<nat, seq<nat>>, hist: seq<seq<Token>>, items: seq<BatchItem>) {
    forall i :: 0 <= i < |items| ==> ItemOk(size, tables, hist, items[i])
  }

  function ItemRows(tables: map<nat, seq<nat>>, hist: seq<Token>, item: BatchItem): (r: seq<Row>)
    requires item.End() <= |hist|
    ensures |r| == |item.tokens|
    ensures forall o :: 0 <= o < |r| ==> r[o] == Row(hist[..item.start + o + 1], TableOf(tables, item.id))
  {
    seq(|item.tokens|, o requires 0 <= o < |item.tokens| =>
      Row(hist[..item.start + o + 1], TableOf(tables, item.id)))
  }

  ghost function RowsOf(size: Positive, tables: map<nat, seq<nat>>, hist: seq<seq<Token>>,
                        items: seq<BatchItem>): (r: seq<Row>)
    requires ItemsOk(size, tables, hist, items)
    ensures |r| == TokenCount(items)
  {
    if items == [] then [] else
    var n := |items| - 1;
    assert ItemOk(size, tables, hist, items[n]);
    RowsOf(size, tables, hist, items[..n]) + ItemRows(tables, hist[items[n].id], items[n])
  }

  /** Row `t` stands for some position of `item`. */
  ghost predicate FromItem(tables: map<nat, seq<nat>>, hist: seq<seq<Token>>, item: BatchItem, row: Row) {
    && item.id < |hist| && item.id in tables && row.table == tables[item.id]
    && item.start <= row.Position() < item.End() <= |hist[item.id]|
    && row.hist == hist[item.id][..row.Position() + 1]
  }

  /** The rows are the positions of the items, each at least once and nothing else. */
  ghost predicate RowsFrom(tables: map<nat, seq<nat>>, hist: seq<seq<Token>>, items: seq<BatchItem>, rows: seq<Row>) {
    && (forall t :: 0 <= t < |rows| ==> FromSome(tables, hist, items, rows[t]))
    && (forall i, p :: 0 <= i < |items| && items[i].start <= p < items[i].End() ==>
         HasRow(tables, hist, items[i].id, p, rows))
  }

  ghost predicate FromSome(tables: map<nat, seq<nat>>, hist: seq<seq<Token>>, items: seq<BatchItem>, row: Row) {
    exists i :: 0 <= i < |items| && FromItem(tables, hist, items[i], row)
  }

  ghost predicate HasRow(tables: map<nat, seq<nat>>, hist: seq<seq<Token>>, id: nat, p: nat, rows: seq<Row>) {
    id in tables && id < |hist| && p < |hist[id]| && Row(hist[id][..p + 1], tables[id]) in rows
  }

  lemma {:induction false} ItemRowsFacts(tables: map<nat, seq<nat>>, hist: seq<seq<Token>>, item: BatchItem)
    requires item.id in tables && item.id < |hist| && item.End() <= |hist[item.id]|
    ensures var added := ItemRows(tables, hist[item.id], item);
      && (forall o :: 0 <= o < |added| ==> FromItem(tables, hist, item, added[o]))
      && (forall p :: item.start <= p < item.End() ==> HasRow(tables, hist, item.id, p, added))
  {
    var added := ItemRows(tables, hist[item.id], item);
    forall o | 0 <= o < |added| ensures FromItem(tables, hist, item, added[o]) {
      assert added[o] == Row(hist[item.id][..item.start + o + 1], tables[item.id]);
    }
    forall p | item.start <= p < item.End() ensures HasRow(tables, hist, item.id, p, added) {
      var o := p - item.start;
      assert added[o] == Row(hist[item.id][..item.start + o + 1], tables[item.id]);
      assert added[o] in added;
    }
  }

  /** Appending the rows of one more item. */
  lemma {:induction false} RowsFromSnoc(tables: map<nat, seq<nat>>, hist: seq<seq<Token>>, init: seq<BatchItem>,
                                        item: BatchItem, before: seq<Row>, added: seq<Row>)
    requires RowsFrom(tables, hist, init, before)
    requires forall o :: 0 <= o < |added| ==> FromItem(tables, hist, item, added[o])
    requires forall p :: item.start <= p < item.End() ==> HasRow(tables, hist, item.id, p, added)
    ensures RowsFrom(tables, hist, init + [item], before + added)
  {
    var items, rows := init + [item], before + added;
    forall t | 0 <= t < |rows| ensures FromSome(tables, hist, items, rows[t]) {
      if t < |before| {
        assert rows[t] == before[t];
        var i :| 0 <= i < |init| && FromItem(tables, hist, init[i], before[t]);
        assert items[i] == init[i];
      } else {
        assert rows[t] == added[t - |before|];
        assert FromItem(tables, hist, items[|init|], rows[t]);
      }
    }
    forall i, p | 0 <= i < |items| && items[i].start <= p < items[i].End()
      ensures HasRow(tables, hist, items[i].id, p, rows) {
      if i < |init| {
        assert items[i] == init[i];
        assert HasRow(tables, hist, init[i].id, p, before);
      } else {
        assert items[i] == item;
        assert HasRow(tables, hist, item.id, p, added);
      }
    }
  }

  lemma {:induction false} PackRows(size: Positive, tables: map<nat, seq<nat>>, hist: seq<seq<Token>>,
                                    items: seq<BatchItem>)
    requires ItemsOk(size, tables, hist, items)
    ensures RowsFrom(tables, hist, items, RowsOf(size, tables, hist, items))
  {
    if items != [] {
      var n := |items| - 1;
      assert ItemOk(size, tables, hist, items[n]);
      PackRows(size, tables, hist, items[..n]);
      ItemRowsFacts(tables, hist, items[n]);
      RowsFromSnoc(tables, hist, items[..n], items[n], RowsOf(size, tables, hist, items[..n]),
                   ItemRows(tables, hist[items[n].id], items[n]));
      assert items == items[..n] + [items[n]];
    }
  }

  /** The flat lists name, token by token, the rows of the plan. */
  ghost predicate FlatMatches(tables: map<nat, seq<nat>>, items: seq<BatchItem>, f: Flat, rows: seq<Row>) {
    && |rows| == |f.inputIds| == |f.positions| == |f.ids| == |f.seqIds|
    && forall t :: 0 <= t < |rows| ==>
         && f.seqIds[t] < |items| && f.ids[t] == items[f.seqIds[t]].id
         && rows[t].hist != [] && rows[t].table == TableOf(tables, f.ids[t])
         && f.inputIds[t] == rows[t].hist[rows[t].Position()] && f.positions[t] == rows[t].Position()
  }

  lemma {:induction false} PackFlat(size: Positive, tables: map<nat, seq<nat>>, hist: seq<seq<Token>>,
                                    items: seq<BatchItem>)
    requires ItemsOk(size, tables, hist, items)
    ensures FlatMatches(tables, items, FlatOf(items), RowsOf(size, tables, hist, items))
  {
    if items != [] {
      var n := |items| - 1;
      var init, item := items[..n], items[n];
      assert ItemOk(size, tables, hist, item);
      PackFlat(size, tables, hist, init);
      FlatMatchesSnoc(tables, hist, init, item, FlatOf(init), RowsOf(size, tables, hist, init));
      assert items == init + [item];
    }
  }

  lemma {:induction false} FlatMatchesSnoc(tables: map<nat, seq<nat>>, hist: seq<seq<Token>>, init: seq<BatchItem>,
                                           item: BatchItem, f: Flat, before: seq<Row>)
    requires FlatMatches(tables, init, f, before)
    requires item.id < |hist| && item.End() <= |hist[item.id]|
    requires item.tokens == hist[item.id][item.start..item.End()]
    ensures FlatMatches(tables, init + [item], f.Add(item, |init|), before + ItemRows(tables, hist[item.id], item))
  {
    var items, f', added := init + [item], f.Add(item, |init|), ItemRows(tables, hist[item.id], item);
    forall t | 0 <= t < |before| ensures items[f'.seqIds[t]] == init[f.seqIds[t]] {
    }
    forall t | |before| <= t < |before| + |added| ensures f'.seqIds[t] == |init| && items[|init|] == item {
    }
  }

  lemma {:induction false} BlockRowSlot(size: Positive, table: seq<nat>, width: nat, j: nat)
    requires j / size < |table|
    ensures Slot(size, BlockRow(table, width), j) == Slot(size, table, j)
  {
    assert BlockRow(table, width)[j / size] == table[j / size];
  }

  /** The packed tensors describe the rows of the plan. */
  lemma {:induction false} PackDescribes(size: Positive, tables: map<nat, seq<nat>>, hist: seq<seq<Token>>,
                                         items: seq<BatchItem>, width: nat)
    requires ItemsOk(size, tables, hist, items)
    ensures Describes(size, TensorsOf(size, tables, items, width), RowsOf(size, tables, hist, items))
  {
    PackFlat(size, tables, hist, items);
    PackRows(size, tables, hist, items);
    var b, rows := TensorsOf(size, tables, items, width), RowsOf(size, tables, hist, items);
    var f := FlatOf(items);
    forall t | 0 <= t < |rows| ensures DescribesRow(size, b, rows[t], t) {
      var i :| 0 <= i < |items| && FromItem(tables, hist, items[i], rows[t]);
      assert ItemOk(size, tables, hist, items[i]);
      var table := TableOf(tables, f.ids[t]);
      assert b.blockTables[b.seqIds[t]] == BlockRow(table, width);
      forall j | 0 <= j <= rows[t].Position()
        ensures Slot(size, b.blockTables[b.seqIds[t]], j) == Slot(size, rows[t].table, j) {
        PositionInTable(size, j, items[i].End(), |table|);
        BlockRowSlot(size, table, width, j);
      }
    }
  }

  /** The item each flat token comes from. */
  lemma {:induction false} FlatToken(items: seq<BatchItem>, t: nat)
    requires t < TokenCount(items)
    ensures var f := FlatOf(items);
      && f.seqIds[t] < |items| && f.ids[t] == items[f.seqIds[t]].id
      && items[f.seqIds[t]].start <= f.positions[t] < items[f.seqIds[t]].End()
    decreases |items|
  {
    if items != [] {
      var n := |items| - 1;
      if t < TokenCount(items[..n]) {
        FlatToken(items[..n], t);
      }
    }
  }

  // -- running them is safe ----------------------------------------------------------

  /** Every item starts where its request's cached content ends, or before. */
  ghost predicate ItemsCached(c: Cache, items: seq<BatchItem>) {
    forall i :: 0 <= i < |items| ==> items[i].id in c.lengths && items[i].start <= c.lengths[items[i].id]
  }

  /** Slot disjointness: across the batch, a shared slot means the same request and the same position. */
  lemma {:induction false} RowsNoClash(c: Cache, hist: seq<seq<Token>>, items: seq<BatchItem>, rows: seq<Row>)
    requires c.Valid() && ItemsOk(c.size, c.tables, hist, items) && RowsFrom(c.tables, hist, items, rows)
    ensures NoClash(c.size, rows)
  {
    forall t, u, j | && 0 <= t < |rows| && 0 <= u < |rows| && 0 <= j < |rows[t].hist| && rows[u].hist != []
                     && Slot(c.size, rows[u].table, rows[u].Position()) == Slot(c.size, rows[t].table, j)
      ensures rows[u].hist == rows[t].hist[..j + 1] {
      var a :| 0 <= a < |items| && FromItem(c.tables, hist, items[a], rows[t]);
      var b :| 0 <= b < |items| && FromItem(c.tables, hist, items[b], rows[u]);
      assert ItemOk(c.size, c.tables, hist, items[a]) && ItemOk(c.size, c.tables, hist, items[b]);
      SameSlotSamePosition(c, items[b].id, rows[u].Position(), items[b].End(), items[a].id, j, items[a].End());
    }
  }

  /** `slot_mapping` is injective on (request, position) pairs covered by the tables. */
  lemma {:induction false} SameSlotSamePosition(c: Cache, r: nat, p: nat, n: nat, r': nat, p': nat, n': nat)
    requires c.Valid() && r in c.tables && r' in c.tables
    requires p < n && BlocksFor(c.size, n) <= |c.tables[r]| && p' < n' && BlocksFor(c.size, n') <= |c.tables[r']|
    ensures Slot(c.size, c.tables[r], p) == Slot(c.size, c.tables[r'], p') <==> r == r' && p == p'
  {
    PositionInTable(c.size, p, n, |c.tables[r]|);
    PositionInTable(c.size, p', n', |c.tables[r']|);
    BlocksOfTable(c, r);
    if r == r' {
      SlotsOfOneTable(c.size, c.tables[r], p, p');
    } else {
      TableVersusTable(c, r, r');
      SlotsOfDisjointTables(c.size, c.tables[r], p, c.tables[r'], p');
    }
  }

  lemma {:induction false} RowsReady(m: Model, c: Cache, hist: seq<seq<Token>>, items: seq<BatchItem>, rows: seq<Row>)
    requires c.Valid() && Agrees(m, c, hist)
    requires ItemsOk(c.size, c.tables, hist, items) && RowsFrom(c.tables, hist, items, rows) && ItemsCached(c, items)
    ensures Ready(m, c.size, c.pool, rows)
  {
    forall t, j | 0 <= t < |rows| && 0 <= j < |rows[t].hist|
      ensures WrittenSlot(c.size, rows, Slot(c.size, rows[t].table, j)) || CachedAt(m, c.size, c.pool, rows[t], j) {
      var i :| 0 <= i < |items| && FromItem(c.tables, hist, items[i], rows[t]);
      var id := items[i].id;
      if j < items[i].start {
        forall l | 0 <= l < m.layers
          ensures Read(c.pool[l], Slot(c.size, rows[t].table, j)) == KVAt(m, rows[t].hist, l, j) {
          assert rows[t].hist[..j + 1] == hist[id][..j + 1];
          KVPrefix(m, rows[t].hist, hist[id], l, j);
        }
      } else {
        assert HasRow(c.tables, hist, id, j, rows);
        var u :| 0 <= u < |rows| && rows[u] == Row(hist[id][..j + 1], c.tables[id]);
        assert rows[u].Position() == j;
      }
    }
  }

  lemma {:induction false} RowsInPool(m: Model, c: Cache, hist: seq<seq<Token>>, items: seq<BatchItem>, rows: seq<Row>)
    requires c.Valid() && ItemsOk(c.size, c.tables, hist, items) && RowsFrom(c.tables, hist, items, rows)
    ensures InPool(c.size, c.pool, rows)
  {
    forall l, t | 0 <= l < |c.pool| && 0 <= t < |rows| && rows[t].hist != []
      ensures Slot(c.size, rows[t].table, rows[t].Position()) < |c.pool[l]| {
      var i :| 0 <= i < |items| && FromItem(c.tables, hist, items[i], rows[t]);
      assert ItemOk(c.size, c.tables, hist, items[i]);
      SlotInPool(c, items[i].id, rows[t].Position(), items[i].End());
    }
  }

  lemma {:induction false} SlotInPool(c: Cache, id: nat, p: nat, n: nat)
    requires c.Valid() && id in c.tables && p < n && BlocksFor(c.size, n) <= |c.tables[id]|
    ensures forall l :: 0 <= l < |c.pool| ==> Slot(c.size, c.tables[id], p) < |c.pool[l]|
  {
    hide Slot, Cache.TablesValid, Cache.PrefixesValid;
    PositionInTable(c.size, p, n, |c.tables[id]|);
    BlocksOfTable(c, id);
    assert c.tables[id][p / c.size] in c.tables[id];
    SlotBound(c.size, c.tables[id], p, c.alloc.total);
  }

  /** Slots the batch writes belong to positions its items feed. */
  lemma {:induction false} WrittenIsFed(c: Cache, hist: seq<seq<Token>>, items: seq<BatchItem>, rows: seq<Row>, r: nat,
                                        p: nat, n: nat)
    requires c.Valid() && ItemsOk(c.size, c.tables, hist, items) && RowsFrom(c.tables, hist, items, rows)
    requires r in c.tables && p < n && BlocksFor(c.size, n) <= |c.tables[r]|
    requires WrittenSlot(c.size, rows, Slot(c.size, c.tables[r], p))
    ensures exists i :: 0 <= i < |items| && items[i].id == r && items[i].start <= p < items[i].End()
  {
    var u :| 0 <= u < |rows| && rows[u].hist != [] &&
             Slot(c.size, rows[u].table, rows[u].Position()) == Slot(c.size, c.tables[r], p);
    var i :| 0 <= i < |items| && FromItem(c.tables, hist, items[i], rows[u]);
    assert ItemOk(c.size, c.tables, hist, items[i]);
    SameSlotSamePosition(c, items[i].id, rows[u].Position(), items[i].End(), r, p, n);
  }

  lemma {:induction false} WrittenNotInEntry(c: Cache, hist: seq<seq<Token>>, items: seq<BatchItem>, rows: seq<Row>,
                                             e: Entry, p: nat)
    requires c.Valid() && ItemsOk(c.size, c.tables, hist, items) && RowsFrom(c.tables, hist, items, rows)
    requires e in c.prefixes && p < e.length
    ensures !WrittenSlot(c.size, rows, Slot(c.size, e.blocks, p))
  {
    if u :| 0 <= u < |rows| && rows[u].hist != [] &&
            Slot(c.size, rows[u].table, rows[u].Position()) == Slot(c.size, e.blocks, p) {
      var i :| 0 <= i < |items| && FromItem(c.tables, hist, items[i], rows[u]);
      assert ItemOk(c.size, c.tables, hist, items[i]);
      var id, q := items[i].id, rows[u].Position();
      PositionInTable(c.size, q, items[i].End(), |c.tables[id]|);
      BlocksOfEntry(c, e);
      PositionInTable(c.size, p, e.length, |e.blocks|);
      TableVersusEntry(c, id, e);
      SlotsOfDisjointTables(c.size, c.tables[id], q, e.blocks, p);
    }
  }

  /**
   * A forward that stops anywhere part-way cannot poison anything: committed content of requests and
   * prefix entries is untouched.
   */
  lemma {:induction false} PartialForwardAgrees(m: Model, c: Cache, hist: seq<seq<Token>>, items: seq<BatchItem>,
                                                rows: seq<Row>, pool': seq<Layer>)
    requires c.Valid() && Agrees(m, c, hist)
    requires ItemsOk(c.size, c.tables, hist, items) && RowsFrom(c.tables, hist, items, rows)
    requires forall i :: 0 <= i < |items| ==> items[i].id in c.lengths && items[i].start >= c.lengths[items[i].id]
    requires PartialForward(c.size, rows, c.pool, pool')
    ensures Agrees(m, c.(pool := pool'), hist)
  {
    forall r, l, p | r in c.tables && 0 <= l < m.layers && 0 <= p < c.lengths[r]
      ensures Read(pool'[l], Slot(c.size, c.tables[r], p)) == KVAt(m, hist[r], l, p) {
      if WrittenSlot(c.size, rows, Slot(c.size, c.tables[r], p)) {
        WrittenIsFed(c, hist, items, rows, r, p, c.lengths[r]);
        assert false;
      }
    }
    forall e, l, p | e in c.prefixes && 0 <= l < m.layers && 0 <= p < e.length
      ensures Read(pool'[l], Slot(c.size, e.blocks, p)) == KVAt(m, e.key, l, p) {
      WrittenNotInEntry(c, hist, items, rows, e, p);
    }
  }
}
