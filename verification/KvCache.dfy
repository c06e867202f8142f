/** The paged KV cache as a value: what each operation of `PagedKVCache` does to its fields. */
module KvCache {
  import opened Lists
  import opened Allocator
  import opened Transformer

  /** One layer of the physical pools: one entry per slot, block after block. */
  type Layer = seq<KV>

  /** The block size both kernels are compiled for, and the only one the configuration accepts. */
  const BLOCK: Positive := 16

  /** An entry of the ordered prefix dict: key, then (owner, blocks, length). */
  datatype Entry = Entry(key: seq<Token>, serial: nat, blocks: seq<nat>, length: nat)

  datatype GrowError = NoTable | Full

  /** Pool reads in range; the default is never reached from a valid cache. */
  function Read(layer: Layer, slot: int): KV {
    if 0 <= slot < |layer| then layer[slot] else KV([], [])
  }

  /** The physical slot of a position; positions beyond the table are never asked for. */
  function Slot(size: Positive, table: seq<nat>, p: nat): nat {
    (if p / size < |table| then table[p / size] else 0) * size + p % size
  }

  /** `index_copy_` of the selected source blocks onto the target blocks, in every layer. */
  function CopyBlocks(pool: seq<Layer>, size: Positive, source: seq<nat>, target: seq<nat>): seq<Layer>
    requires |source| == |target|
  {
    seq(|pool|, l requires 0 <= l < |pool| => CopyLayer(pool[l], size, source, target))
  }

  function CopyLayer(layer: Layer, size: Positive, source: seq<nat>, target: seq<nat>): Layer
    requires |source| == |target|
  {
    seq(|layer|, s requires 0 <= s < |layer| =>
      match IndexOf(target, s / size)
      case None => layer[s]
      case Some(k) => Read(layer, source[k] * size + s % size))
  }

  function Find(prefixes: seq<Entry>, key: seq<Token>): (r: Option<nat>)
    ensures r.Some? ==> r.value < |prefixes| && prefixes[r.value].key == key
    ensures r.None? ==> forall e :: e in prefixes ==> e.key != key
  {
    if prefixes == [] then None
    else if prefixes[0].key == key then Some(0)
    else
      assert prefixes == [prefixes[0]] + prefixes[1..];
      match Find(prefixes[1..], key)
      case None => None
      case Some(k) => Some(k + 1)
  }

  function MoveToEnd(prefixes: seq<Entry>, k: nat): seq<Entry>
    requires k < |prefixes|
  {
    prefixes[..k] + prefixes[k + 1..] + [prefixes[k]]
  }

  function PrefixBlocks(prefixes: seq<Entry>): nat {
    if prefixes == [] then 0 else |prefixes[0].blocks| + PrefixBlocks(prefixes[1..])
  }

  /** How many entries at the old end carry the protected key. */
  function Leading(prefixes: seq<Entry>, protect: Option<seq<Token>>): nat {
    if prefixes == [] || Some(prefixes[0].key) != protect then 0 else 1 + Leading(prefixes[1..], protect)
  }

  lemma {:induction false} LeadingRotate(prefixes: seq<Entry>, e: Entry, protect: Option<seq<Token>>)
    requires exists x :: x in prefixes && Some(x.key) != protect
    ensures Leading(prefixes + [e], protect) == Leading(prefixes, protect)
  {
    assert prefixes == [prefixes[0]] + prefixes[1..];
    assert (prefixes + [e])[1..] == prefixes[1..] + [e];
    if Some(prefixes[0].key) == protect {
      LeadingRotate(prefixes[1..], e, protect);
    }
  }

  /** Every entry carries the protected key. */
  predicate OnlyProtected(prefixes: seq<Entry>, protect: Option<seq<Token>>) {
    forall e | e in prefixes :: Some(e.key) == protect
  }

  /** The largest block-aligned length shorter than the prompt. */
  function Aligned(size: Positive, n: nat): (r: nat)
    ensures r <= n && (n > 0 ==> r < n) && r % size == 0 && n <= r + size
  {
    if n == 0 then 0 else
    AlignedBound(size, n);
    (n - 1) / size * size
  }

  /** How many blocks a growth request adds to one table. */
  function Missing(size: Positive, tables: map<nat, seq<nat>>, r: (nat, nat)): nat {
    if r.0 !in tables then 0
    else if BlocksFor(size, r.1) <= |tables[r.0]| then 0
    else BlocksFor(size, r.1) - |tables[r.0]|
  }

  function Additions(size: Positive, tables: map<nat, seq<nat>>, required: seq<(nat, nat)>): seq<nat> {
    seq(|required|, i requires 0 <= i < |required| => Missing(size, tables, required[i]))
  }

  datatype Cache = Cache(
    size: Positive,
    limit: nat,
    alloc: Blocks,
    tables: map<nat, seq<nat>>,
    lengths: map<nat, nat>,
    prefixes: seq<Entry>,
    serial: nat,
    hits: nat,
    misses: nat,
    pool: seq<Layer>)
  {
    // -- prefix eviction ----------------------------------------------------

    function DropOldest(): Cache
      requires prefixes != []
    {
      this.(alloc := alloc.Freed(prefixes[0].blocks), prefixes := prefixes[1..])
    }

    function Rotate(): Cache
      requires prefixes != []
    {
      this.(prefixes := MoveToEnd(prefixes, 0))
    }

    function Evict(needed: nat, protect: Option<seq<Token>>): (c: Cache)
      ensures c.pool == pool
      decreases |prefixes|, Leading(prefixes, protect)
    {
      if prefixes == [] || |alloc.free| >= needed then this
      else if Some(prefixes[0].key) == protect then
        if OnlyProtected(Rotate().prefixes, protect) then Rotate()
        else
          assert Rotate().prefixes == prefixes[1..] + [prefixes[0]];
          LeadingRotate(prefixes[1..], prefixes[0], protect);
          Rotate().Evict(needed, protect)
      else DropOldest().Evict(needed, protect)
    }

    // -- growth -------------------------------------------------------------

    /** Appends `counts[i]` fresh blocks to the table of `ids[i]`, in order. */
    function Grow(ids: seq<nat>, counts: seq<nat>): (c: Cache)
      requires |ids| == |counts| && Sum(counts) <= |alloc.free|
      ensures |c.alloc.free| == |alloc.free| - Sum(counts) && c.pool == pool
    {
      if ids == [] then this else
      var n := |ids| - 1;
      Grow(ids[..n], counts[..n]).GrowOne(ids[n], counts[n])
    }

    function GrowOne(id: nat, count: nat): Cache
      requires count <= |alloc.free|
    {
      this.(alloc := alloc.Allocate(Request(id), count),
            tables := tables[id := (if id in tables then tables[id] else []) + alloc.Popped(count)])
    }

    function EnsureCapacity(required: seq<(nat, nat)>): (r: (Option<GrowError>, Cache))
      ensures r.1.pool == pool
    {
      if exists r | r in required :: r.0 !in tables then (Some(NoTable), this) else
      var counts := Additions(size, tables, required);
      var c := Evict(Sum(counts), None);
      if Sum(counts) > |c.alloc.free| then (Some(Full), c) else
      (None, c.Grow(Ids(required), counts))
    }

    // -- prefix restore and store -------------------------------------------

    /** The loop of `restore_prefix` from candidate length `length` down. */
    function RestoreFrom(id: nat, tokens: seq<Token>, length: nat, aligned: nat): (r: (Cache, nat))
      requires length <= |tokens|
      ensures r.1 <= length
    {
      if length == 0 then (Miss(aligned), 0) else
      match Find(prefixes, tokens[..length])
      case None => RestoreFrom(id, tokens, if length < size then 0 else length - size, aligned)
      case Some(k) =>
        var e := prefixes[k];
        var c := Evict(|e.blocks|, Some(e.key));
        if |e.blocks| > |c.alloc.free| then (c.Miss(aligned), 0)
        else (c.EnsureCapacity([(id, length)]).1.CopyIn(id, e, length), length)
    }

    function Miss(aligned: nat): Cache {
      if aligned > 0 then this.(misses := misses + 1) else this
    }

    /** The rest of a hit, the request's table having grown to the entry's size. */
    function CopyIn(id: nat, e: Entry, length: nat): Cache {
      var target := if id in tables then tables[id] else [];
      if |target| != |e.blocks| then this else
      this.(pool := CopyBlocks(pool, size, e.blocks, target),
            lengths := lengths[id := length],
            prefixes := match Find(prefixes, e.key) case None => prefixes case Some(k) => MoveToEnd(prefixes, k),
            hits := hits + 1)
    }

    function Restore(id: nat, tokens: seq<Token>): (Cache, nat) {
      if limit == 0 then (this, 0) else
      RestoreFrom(id, tokens, Aligned(size, |tokens|), Aligned(size, |tokens|))
    }

    /** `popitem(last=False)` until the new entry fits the prefix budget. */
    function MakeRoom(blocks: nat): Cache
      decreases |prefixes|
    {
      if prefixes == [] || PrefixBlocks(prefixes) + blocks <= limit then this
      else DropOldest().MakeRoom(blocks)
    }

    function Store(id: nat, tokens: seq<Token>): (Cache, nat) {
      var length := Aligned(size, |tokens|);
      var blocks := length / size;
      if limit == 0 || length == 0 || blocks > limit then (this, 0) else
      match Find(prefixes, tokens[..length])
      case Some(k) => (this.(prefixes := MoveToEnd(prefixes, k)), length)
      case None =>
        if id !in lengths || lengths[id] < length then (this, 0) else
        var c := MakeRoom(blocks).Evict(blocks, None);
        if blocks > |c.alloc.free| then (c, 0) else (c.CopyOut(id, tokens[..length], blocks), length)
    }

    function CopyOut(id: nat, key: seq<Token>, blocks: nat): Cache
      requires blocks <= |alloc.free|
    {
      var target := alloc.Popped(blocks);
      var table := if id in tables then tables[id] else [];
      if |table| < blocks then this else
      this.(alloc := alloc.Allocate(Prefix(serial + 1), blocks),
            serial := serial + 1,
            pool := CopyBlocks(pool, size, table[..blocks], target),
            prefixes := prefixes + [Entry(key, serial + 1, target, |key|)])
    }

    // -- admission, commit, release -----------------------------------------

    predicate CanReserve(id: nat, capacity: nat) {
      id !in tables && BlocksFor(size, capacity) <= |alloc.free|
    }

    function Reserve(id: nat, capacity: nat): Cache
      requires CanReserve(id, capacity)
    {
      GrowOne(id, BlocksFor(size, capacity)).(lengths := lengths[id := 0])
    }

    /** The cache after `reserve(id, 0)`, when it succeeds. */
    function Reserve0(id: nat): Cache {
      if CanReserve(id, 0) then Reserve(id, 0) else this
    }

    function Commit(ends: seq<(nat, nat)>): Cache {
      if ends == [] then this else
      var c := Commit(ends[..|ends| - 1]);
      var (id, length) := ends[|ends| - 1];
      if id !in c.lengths || c.lengths[id] >= length then c else c.(lengths := c.lengths[id := length])
    }

    function Release(id: nat): Cache {
      if id !in tables then this.(lengths := lengths - {id}) else
      this.(alloc := alloc.Freed(alloc.OwnedBy(Request(id))), tables := tables - {id}, lengths := lengths - {id})
    }

    function AllocatedTokens(id: nat): nat {
      (if id in tables then |tables[id]| else 0) * size
    }

    // -- validity -----------------------------------------------------------

    /** The tables list every block owned by a request, in allocation order. */
    ghost predicate TablesValid() {
      && (forall r :: r in tables ==> alloc.OwnedBy(Request(r)) == tables[r])
      && (forall r :: r !in tables ==> alloc.OwnedBy(Request(r)) == [])
      && (forall r :: r in lengths <==> r in tables)
      && (forall r :: r in lengths ==> BlocksFor(size, lengths[r]) <= |tables[r]|)
    }

    /** The prefix entries list every block owned by the prefix cache. */
    ghost predicate PrefixesValid() {
      && (forall i, j :: 0 <= i < j < |prefixes| ==>
            prefixes[i].key != prefixes[j].key && prefixes[i].serial != prefixes[j].serial)
      && (forall e :: e in prefixes ==> EntryValid(e))
      && (forall n :: (forall e :: e in prefixes ==> e.serial != n) ==> alloc.OwnedBy(Prefix(n)) == [])
      && PrefixBlocks(prefixes) <= limit
    }

    ghost predicate EntryValid(e: Entry) {
      && alloc.OwnedBy(Prefix(e.serial)) == e.blocks
      && e.serial <= serial
      && |e.key| == e.length == |e.blocks| * size
      && e.blocks != []
    }

    ghost predicate PoolValid() {
      forall l :: 0 <= l < |pool| ==> |pool[l]| == alloc.total * size
    }

    ghost predicate Valid() {
      alloc.Valid() && TablesValid() && PrefixesValid() && PoolValid()
    }
  }

  function Ids(required: seq<(nat, nat)>): seq<nat> {
    seq(|required|, i requires 0 <= i < |required| => required[i].0)
  }

  lemma {:induction false} AlignedBound(size: Positive, n: nat)
    requires n > 0
    ensures (n - 1) / size * size < n <= (n - 1) / size * size + size
    ensures ((n - 1) / size * size) % size == 0
  {
    var q, r := (n - 1) / size, (n - 1) % size;
    assert n - 1 == q * size + r;
    MultipleOf(size, q, 0);
  }

  lemma {:induction false} WholeBlocks(size: Positive, n: nat)
    requires n % size == 0
    ensures n / size * size == n && BlocksFor(size, n) == n / size && (n > 0 ==> n / size > 0)
  {
    assert n == n / size * size;
    BlocksForExact(size, n / size);
  }

  /** Dividing `b * size + o` with `o < size` gives back `b` and `o`. */
  lemma {:induction false} MultipleOf(size: Positive, b: nat, o: nat)
    requires o < size
    ensures (b * size + o) / size == b && (b * size + o) % size == o
  {
    var x := b * size + o;
    var q, r := x / size, x % size;
    assert x == q * size + r;
    if q < b {
      MulGap(q, b, size);
    } else if b < q {
      MulGap(b, q, size);
    }
  }

  lemma {:induction false} MulGap(a: nat, b: nat, k: nat)
    requires a < b
    ensures a * k + k <= b * k
  {
    assert (a + 1) * k <= b * k;
  }

  lemma {:induction false} SlotParts(size: Positive, table: seq<nat>, p: nat)
    requires p / size < |table|
    ensures Slot(size, table, p) / size == table[p / size]
    ensures Slot(size, table, p) % size == p % size
  {
    MultipleOf(size, table[p / size], p % size);
  }

  lemma {:induction false} SlotBound(size: Positive, table: seq<nat>, p: nat, total: nat)
    requires p / size < |table| && table[p / size] < total
    ensures Slot(size, table, p) < total * size
  {
    assert (table[p / size] + 1) * size <= total * size;
    assert (table[p / size] + 1) * size == table[p / size] * size + size;
  }

  /** Positions below the covered length fall into blocks of the table. */
  lemma {:induction false} PositionInTable(size: Positive, p: nat, n: nat, blocks: nat)
    requires p < n && BlocksFor(size, n) <= blocks
    ensures p / size < blocks
  {
    BlocksForIsLeast(size, n, blocks);
    var q := p / size;
    assert p == q * size + p % size;
    assert q >= blocks ==> blocks * size <= q * size;
  }

  /** Slots of two tables without a common block never coincide. */
  lemma {:induction false} SlotsOfDisjointTables(size: Positive, a: seq<nat>, p: nat, b: seq<nat>, q: nat)
    requires p / size < |a| && q / size < |b|
    requires forall x :: !(x in a && x in b)
    ensures Slot(size, a, p) != Slot(size, b, q)
  {
    SlotParts(size, a, p);
    SlotParts(size, b, q);
    assert a[p / size] in a && b[q / size] in b;
  }

  /** Within a duplicate-free table, distinct positions have distinct slots. */
  lemma {:induction false} SlotsOfOneTable(size: Positive, a: seq<nat>, p: nat, q: nat)
    requires p / size < |a| && q / size < |a| && NoDup(a)
    ensures Slot(size, a, p) == Slot(size, a, q) ==> p == q
  {
    SlotParts(size, a, p);
    SlotParts(size, a, q);
    if Slot(size, a, p) == Slot(size, a, q) {
      assert p / size == q / size;
      assert p == p / size * size + p % size;
    }
  }
}
