/** `PagedKVCache` as an object: each operation leaves exactly the value its specification on `Cache` names. */
module PagedCache {
  import opened Lists
  import opened Allocator
  import opened Transformer
  import opened KvCache
  import opened KvCacheValid
  import opened KvCacheStats
  import opened KvCacheContent
  import opened PackedForward
  import P = Packing
  import K = AttentionKernels

  datatype ReserveError = Duplicate | NoRoom

  /** The counters of `stats()`, in blocks and slots. */
  datatype CacheStats = CacheStats(
    blocksTotal: nat,
    blocksUsed: nat,
    requestBlocks: int,
    prefixBlocks: nat,
    reservedSlots: nat,
    occupiedSlots: nat,
    fragmentedSlots: nat,
    hits: nat,
    misses: nat)

  /** What the second loop of `ensure_capacity_batch` leaves: each table extended by its blocks. */
  function Extended(tables: map<nat, seq<nat>>, ids: seq<nat>, added: seq<seq<nat>>): map<nat, seq<nat>>
    requires |ids| == |added|
  {
    if ids == [] then tables else
    var n := |ids| - 1;
    var t := Extended(tables, ids[..n], added[..n]);
    t[ids[n] := (if ids[n] in t then t[ids[n]] else []) + added[n]]
  }

  /** How many leading entries `commit_lengths` applies before it meets one its table does not cover. */
  function Committable(size: Positive, tables: map<nat, seq<nat>>, ends: seq<(nat, nat)>): (k: nat)
    ensures k <= |ends|
  {
    if ends == [] || ends[0].0 !in tables || BlocksFor(size, ends[0].1) > |tables[ends[0].0]| then 0
    else 1 + Committable(size, tables, ends[1..])
  }

  lemma {:induction false} GrowSnoc(c: Cache, ids: seq<nat>, counts: seq<nat>, i: nat)
    requires i < |ids| == |counts| && Sum(counts) <= |c.alloc.free|
    ensures Sum(counts[..i]) + counts[i] == Sum(counts[..i + 1]) <= Sum(counts)
    ensures c.Grow(ids[..i + 1], counts[..i + 1]) == c.Grow(ids[..i], counts[..i]).GrowOne(ids[i], counts[i])
  {
    SumPrefix(counts, i + 1);
    assert counts[..i + 1][..i] == counts[..i] && ids[..i + 1][..i] == ids[..i];
  }

  lemma {:induction false} ExtendSnoc(c: Cache, ids: seq<nat>, counts: seq<nat>, i: nat, added: seq<seq<nat>>,
                                      blocks: seq<nat>)
    requires i < |ids| == |counts| && |added| == i && Sum(counts) <= |c.alloc.free|
    requires Sum(counts[..i + 1]) <= Sum(counts)
    requires Sum(counts[..i]) + counts[i] == Sum(counts[..i + 1])
    requires Extended(c.tables, ids[..i], added) == c.Grow(ids[..i], counts[..i]).tables
    requires blocks == c.Grow(ids[..i], counts[..i]).alloc.Popped(counts[i])
    ensures Extended(c.tables, ids[..i + 1], added + [blocks]) == c.Grow(ids[..i + 1], counts[..i + 1]).tables
  {
    hide Sum, Cache.Grow, Blocks.Allocate;
    GrowSnoc(c, ids, counts, i);
    assert (added + [blocks])[..i] == added && ids[..i + 1][..i] == ids[..i];
  }

  lemma {:induction false} TableIds(c: Cache, required: seq<(nat, nat)>)
    requires AllTables(c, required)
    ensures forall r :: r in Ids(required) ==> r in c.tables
  {
    forall r | r in Ids(required) ensures r in c.tables {
      var i :| 0 <= i < |required| && Ids(required)[i] == r;
      assert required[i] in required;
    }
  }

  lemma {:induction false} SumPrefix(s: seq<nat>, i: nat)
    requires i <= |s|
    ensures Sum(s[..i]) <= Sum(s)
  {
    assert s == s[..i] + s[i..];
    SumAppend(s[..i], s[i..]);
  }

  lemma {:induction false} ZeroGrowth(a: Blocks, o: Owner)
    ensures a.Allocate(o, 0) == a && a.Popped(0) == []
  {
    assert a.Popped(0) == [];
    assert a.keys + [] == a.keys && a.free[..|a.free|] == a.free;
    assert a.owner + (map b | b in [] :: o) == a.owner;
  }

  lemma {:induction false} CacheParts(c: Cache)
    requires c.Valid()
    ensures c.alloc.Valid() && forall r :: r in c.lengths <==> r in c.tables
  {
  }

  lemma {:induction false} EntryLength(c: Cache, e: Entry)
    requires c.Valid() && e in c.prefixes
    ensures e.length == |e.key|
  {
    assert c.EntryValid(e);
  }

  lemma {:induction false} MissValid(c: Cache, aligned: nat)
    requires c.Valid()
    ensures c.Miss(aligned).Valid()
  {
    ValidFrame(c, c.Miss(aligned));
  }

  lemma {:induction false} KeyInTable(c: Cache, id: nat, key: seq<Token>, blocks: nat)
    requires c.Valid() && id in c.lengths && |key| == blocks * c.size && |key| <= c.lengths[id]
    ensures id in c.tables && blocks <= |c.tables[id]|
  {
    BlocksForExact(c.size, blocks);
    BlocksForMonotone(c.size, |key|, c.lengths[id]);
  }

  lemma {:induction false} ReserveValid(c: Cache, id: nat, capacity: nat)
    requires c.Valid() && c.CanReserve(id, capacity)
    ensures c.Reserve(id, capacity).Valid()
  {
    var n := BlocksFor(c.size, capacity);
    AllocateFacts(c.alloc, Request(id), n);
    BlocksForExact(c.size, 0);
    var c' := c.Reserve(id, capacity);
    assert c.alloc.OwnedBy(Request(id)) == [] && [] + c.alloc.Popped(n) == c.alloc.Popped(n);
    forall e | e in c'.prefixes ensures c'.EntryValid(e) {
      assert c.EntryValid(e);
    }
  }

  class PagedKVCache {
    const size: Positive
    const limit: nat
    const allocator: BlockAllocator
    const pool: array<Layer>
    var tables: map<nat, seq<nat>>
    var lengths: map<nat, nat>
    var prefixes: seq<Entry>
    var serial: nat
    var hits: nat
    var misses: nat

    ghost function State(): Cache
      reads this, allocator, pool
    {
      Cache(size, limit, allocator.State(), tables, lengths, prefixes, serial, hits, misses, pool[..])
    }

    ghost predicate Valid()
      reads this, allocator, pool
    {
      allocator.size == size && State().Valid()
    }

    constructor (numBlocks: nat, blockSize: Positive, prefixLimit: nat, layers: nat)
      requires numBlocks > 0
      ensures Valid() && fresh(allocator) && fresh(pool)
      ensures size == blockSize && limit == prefixLimit && allocator.total == numBlocks
      ensures tables == map[] && lengths == map[] && prefixes == [] && pool.Length == layers
    {
      size, limit := blockSize, prefixLimit;
      allocator := new BlockAllocator(numBlocks, blockSize);
      pool := new Layer[layers](l => seq(numBlocks * blockSize, s => KV([], [])));
      tables, lengths, prefixes, serial, hits, misses := map[], map[], [], 0, 0, 0;
      new;
      forall r ensures State().alloc.OwnedBy(r) == [] {
      }
    }

    // -- prefix eviction ---------------------------------------------------------------------

    /** `popitem(last=False)` and freeing of its blocks. */
    method DropOldest()
      requires Valid() && prefixes != []
      modifies this, allocator
      ensures Valid() && State() == old(State()).DropOldest()
    {
      DropOldestFacts(State());
      var e := prefixes[0];
      prefixes := prefixes[1..];
      FreeCheckMeaning(allocator.State(), e.blocks, Prefix(e.serial));
      var error := allocator.Free(e.blocks, Prefix(e.serial));
    }

    method EvictPrefixes(needed: nat, protect: Option<seq<Token>>)
      requires Valid()
      modifies this, allocator
      ensures Valid() && State() == old(State()).Evict(needed, protect)
    {
      hide Cache.Valid;
      while prefixes != [] && |allocator.free| < needed
        invariant Valid()
        invariant State().Evict(needed, protect) == old(State()).Evict(needed, protect)
        decreases |prefixes|, Leading(prefixes, protect)
      {
        if Some(prefixes[0].key) == protect {
          MoveToEndValid(State(), 0);
          ghost var before := State();
          prefixes := MoveToEnd(prefixes, 0);
          assert State() == before.Rotate();
          if forall e | e in prefixes :: Some(e.key) == protect {
            return;
          }
          assert prefixes == before.prefixes[1..] + [before.prefixes[0]];
          LeadingRotate(before.prefixes[1..], before.prefixes[0], protect);
        } else {
          DropOldest();
        }
      }
    }

    // -- growth --------------------------------------------------------------------------------

    /** The first loop of `ensure_capacity_batch`; none when some request has no table. */
    method AdditionsFor(required: seq<(nat, nat)>) returns (additions: Option<seq<nat>>)
      ensures additions.Some? <==> forall r :: r in required ==> r.0 in tables
      ensures additions.Some? ==> additions.value == Additions(size, tables, required)
    {
      var counts: seq<nat> := [];
      for i := 0 to |required|
        invariant |counts| == i && forall j :: 0 <= j < i ==> required[j].0 in tables
        invariant forall j :: 0 <= j < i ==> counts[j] == Missing(size, tables, required[j])
      {
        if required[i].0 !in tables {
          assert required[i] in required;
          return None;
        }
        var blocks := BlocksFor(size, required[i].1);
        counts := counts + [if blocks <= |tables[required[i].0]| then 0 else blocks - |tables[required[i].0]|];
      }
      return Some(counts);
    }

    /** Returns the error raised. `required` is a dict, so no request is named twice. */
    method EnsureCapacityBatch(required: seq<(nat, nat)>) returns (error: Option<GrowError>)
      requires Valid() && NoDup(Ids(required))
      modifies this, allocator
      ensures Valid()
      ensures (error, State()) == old(State()).EnsureCapacity(required)
    {
      var additions := AdditionsFor(required);
      if additions.None? {
        return Some(NoTable);
      }
      var total := Total(additions.value);
      EvictFacts(State(), total, None);
      EvictPrefixes(total, None);
      if total > |allocator.free| {
        return Some(Full);
      }
      TableIds(State(), required);
      GrowTables(Ids(required), additions.value);
      error := None;
    }

    /** Allocate for every request first, then extend every table. */
    method GrowTables(ids: seq<nat>, counts: seq<nat>)
      requires Valid() && |ids| == |counts| && Sum(counts) <= |allocator.free| && NoDup(ids)
      requires forall r :: r in ids ==> r in tables
      modifies this`tables, allocator
      ensures Valid() && State() == old(State()).Grow(ids, counts)
    {
      ghost var c := State();
      GrowFacts(c, ids, counts);
      GrowShape(c, ids, counts);
      var added := AllocateAll(ids, counts);
      ExtendTables(ids, added);
    }

    method AllocateAll(ids: seq<nat>, counts: seq<nat>) returns (added: seq<seq<nat>>)
      requires Valid() && |ids| == |counts| && Sum(counts) <= |allocator.free|
      modifies allocator
      ensures |added| == |ids| && allocator.State() == old(State()).Grow(ids, counts).alloc
      ensures Extended(tables, ids, added) == old(State()).Grow(ids, counts).tables
    {
      ghost var c := State();
      added := [];
      for i := 0 to |ids|
        invariant |added| == i && Sum(counts[..i]) <= Sum(counts) && allocator.Valid()
        invariant allocator.State() == c.Grow(ids[..i], counts[..i]).alloc
        invariant Extended(tables, ids[..i], added) == c.Grow(ids[..i], counts[..i]).tables
      {
        GrowSnoc(c, ids, counts, i);
        var blocks := AllocateSome(ids[i], counts[i]);
        ExtendSnoc(c, ids, counts, i, added, blocks);
        added := added + [blocks];
      }
      assert ids[..|ids|] == ids && counts[..|counts|] == counts;
    }

    /** `if count:` a request that needs nothing is not allocated for. */
    method AllocateSome(id: nat, count: nat) returns (blocks: seq<nat>)
      requires allocator.Valid() && count <= |allocator.free|
      modifies allocator
      ensures allocator.Valid() && blocks == old(allocator.State()).Popped(count)
      ensures allocator.State() == old(allocator.State()).Allocate(Request(id), count)
    {
      ZeroGrowth(allocator.State(), Request(id));
      blocks := [];
      if count > 0 {
        var popped := allocator.Allocate(Request(id), count);
        blocks := popped.value;
      }
    }

    method ExtendTables(ids: seq<nat>, added: seq<seq<nat>>)
      requires |ids| == |added| && forall r :: r in ids ==> r in tables
      modifies this`tables
      ensures tables == Extended(old(tables), ids, added)
    {
      for i := 0 to |ids|
        invariant tables == Extended(old(tables), ids[..i], added[..i])
        invariant forall r :: r in old(tables) ==> r in tables
      {
        assert ids[..i + 1][..i] == ids[..i] && added[..i + 1][..i] == added[..i];
        tables := tables[ids[i] := tables[ids[i]] + added[i]];
      }
      assert ids[..|ids|] == ids && added[..|ids|] == added;
    }

    // -- copies ----------------------------------------------------------------------------------

    /** `index_copy_` of the selected source blocks onto the target blocks, layer by layer. */
    method CopyPool(source: seq<nat>, target: seq<nat>)
      requires |source| == |target|
      modifies pool
      ensures pool[..] == CopyBlocks(old(pool[..]), size, source, target)
    {
      for l := 0 to pool.Length
        invariant forall k :: 0 <= k < l ==> pool[k] == CopyLayer(old(pool[..])[k], size, source, target)
        invariant forall k :: l <= k < pool.Length ==> pool[k] == old(pool[..])[k]
      {
        pool[l] := CopyLayer(pool[l], size, source, target);
      }
    }

    /** The rest of a hit: grow the empty table, copy, and mark the entry as used last. */
    method TakeHit(id: nat, e: Entry)
      requires Valid() && e in prefixes && id in tables && tables[id] == [] && |e.blocks| <= |allocator.free|
      modifies this, allocator, pool
      ensures Valid() && State() == old(State()).EnsureCapacity([(id, e.length)]).1.CopyIn(id, e, e.length)
    {
      hide Cache.Valid, CopyBlocks, Find, MoveToEnd, Cache.EnsureCapacity;
      CopyInGrowth(State(), id, e);
      EnsureCapacityFacts(State(), [(id, e.length)]);
      var error := EnsureCapacityBatch([(id, e.length)]);
      ghost var g := State();
      CopyInValid(g, id, e);
      FindMeaning(prefixes, e.key);
      CopyPool(e.blocks, tables[id]);
      lengths := lengths[id := e.length];
      prefixes := MoveToEnd(prefixes, Find(prefixes, e.key).value);
      hits := hits + 1;
    }

    /** Copies the longest cached block-aligned prefix into a request that has an empty table. */
    method RestorePrefix(id: nat, tokens: seq<Token>) returns (restored: nat)
      requires Valid() && id in tables && tables[id] == [] && tokens != []
      modifies this, allocator, pool
      ensures Valid() && (State(), restored) == old(State()).Restore(id, tokens)
    {
      hide Cache.Valid;
      restored := 0;
      if limit == 0 {
        return;
      }
      var aligned := Aligned(size, |tokens|);
      var length: int := aligned;
      while length > 0
        invariant 0 <= length <= aligned && length % size == 0
        invariant Valid() && State() == old(State())
        invariant State().RestoreFrom(id, tokens, length, aligned) ==
          old(State()).RestoreFrom(id, tokens, aligned, aligned)
      {
        var found := Find(prefixes, tokens[..length]);
        if found.Some? {
          restored := Candidate(id, tokens, length, aligned, found.value);
          return;
        }
        PreviousMultiple(size, length);
        length := length - size;
      }
      CountMiss(aligned);
    }

    /** `if aligned:` a prompt with no whole block to look up is not a miss. */
    method CountMiss(aligned: nat)
      requires Valid()
      modifies this`misses
      ensures Valid() && State() == old(State()).Miss(aligned)
    {
      MissValid(State(), aligned);
      if aligned > 0 {
        misses := misses + 1;
      }
    }

    /** The longest cached candidate: evict the others as needed; too big a one ends the search. */
    method Candidate(id: nat, tokens: seq<Token>, length: nat, aligned: nat, k: nat) returns (restored: nat)
      requires Valid() && id in tables && tables[id] == [] && 0 < length <= |tokens|
      requires k < |prefixes| && Find(prefixes, tokens[..length]) == Some(k)
      modifies this, allocator, pool
      ensures Valid() && (State(), restored) == old(State()).RestoreFrom(id, tokens, length, aligned)
    {
      var e := prefixes[k];
      EntryLength(State(), e);
      EvictFacts(State(), |e.blocks|, Some(e.key));
      EvictPrefixes(|e.blocks|, Some(e.key));
      if |e.blocks| > |allocator.free| {
        CountMiss(aligned);
        restored := 0;
      } else {
        TakeHit(id, e);
        restored := length;
      }
    }

    /** Entries leave, oldest first, until the new one fits the prefix budget. */
    method MakeRoom(blocks: nat)
      requires Valid()
      modifies this, allocator
      ensures Valid() && State() == old(State()).MakeRoom(blocks)
    {
      var cached := PrefixBlocks(prefixes);
      while prefixes != [] && cached + blocks > limit
        invariant Valid() && cached == PrefixBlocks(prefixes)
        invariant State().MakeRoom(blocks) == old(State()).MakeRoom(blocks)
        decreases |prefixes|
      {
        cached := cached - |prefixes[0].blocks|;
        DropOldest();
      }
    }

    /** Retains the block-aligned part of a prompt on blocks of its own. */
    method StorePrefix(id: nat, tokens: seq<Token>) returns (stored: nat)
      requires Valid() && tokens != []
      modifies this, allocator, pool
      ensures Valid() && (State(), stored) == old(State()).Store(id, tokens)
    {
      if limit == 0 {
        return 0;
      }
      var length := Aligned(size, |tokens|);
      var blocks := length / size;
      WholeBlocks(size, length);
      if length == 0 || blocks > limit {
        return 0;
      }
      var key := tokens[..length];
      var found := Find(prefixes, key);
      if found.Some? {
        MoveToEndValid(State(), found.value);
        prefixes := MoveToEnd(prefixes, found.value);
        return length;
      }
      if (if id in lengths then lengths[id] else 0) < length {
        return 0;
      }
      MakeRoomFacts(State(), blocks);
      MakeRoom(blocks);
      EvictFacts(State(), blocks, None);
      EvictFewerBlocks(State(), blocks);
      EvictPrefixes(blocks, None);
      if blocks > |allocator.free| {
        return 0;
      }
      Retain(id, key, blocks);
      stored := length;
    }

    method Retain(id: nat, key: seq<Token>, blocks: nat)
      requires Valid() && 0 < blocks <= |allocator.free| && id in lengths && |key| == blocks * size
      requires |key| <= lengths[id]
      requires PrefixBlocks(prefixes) + blocks <= limit && forall x :: x in prefixes ==> x.key != key
      modifies this, allocator, pool
      ensures Valid() && State() == old(State()).CopyOut(id, key, blocks)
    {
      hide Cache.Valid, CopyBlocks, Blocks.Allocate, Blocks.Valid;
      CacheParts(State());
      KeyInTable(State(), id, key, blocks);
      CopyOutValid(State(), id, key, blocks);
      serial := serial + 1;
      var target := allocator.Allocate(Prefix(serial), blocks);
      CopyPool(tables[id][..blocks], target.value);
      prefixes := prefixes + [Entry(key, serial, target.value, |key|)];
    }

    // -- admission, slots, commit, release -----------------------------------------------------------

    method Reserve(id: nat, capacity: nat) returns (error: Option<ReserveError>)
      requires Valid()
      modifies this, allocator
      ensures Valid()
      ensures error.None? <==> old(State()).CanReserve(id, capacity)
      ensures error == Some(Duplicate) <==> id in old(tables)
      ensures State() == if error.None? then old(State()).Reserve(id, capacity) else old(State())
    {
      hide Cache.Valid;
      if id in tables {
        return Some(Duplicate);
      }
      var needed := BlocksFor(size, capacity);
      if needed > |allocator.free| {
        return Some(NoRoom);
      }
      CacheParts(State());
      ReserveValid(State(), id, capacity);
      var blocks := allocator.Allocate(Request(id), needed);
      assert [] + blocks.value == blocks.value;
      tables := tables[id := blocks.value];
      lengths := lengths[id := 0];
      error := None;
    }

    /** Physical slots; none for unequal lengths or a position no table covers. */
    method SlotMapping(ids: seq<nat>, positions: seq<nat>) returns (slots: Option<seq<nat>>)
      ensures slots.Some? <==>
        (|ids| == |positions| && forall t :: 0 <= t < |ids| ==>
          ids[t] in tables && positions[t] / size < |tables[ids[t]]|)
      ensures slots.Some? ==> |ids| == |positions| && slots.value == P.SlotMapping(size, tables, ids, positions)
    {
      if |ids| != |positions| {
        return None;
      }
      var mapped: seq<nat> := [];
      for t := 0 to |ids|
        invariant |mapped| == t
        invariant forall u :: 0 <= u < t ==> ids[u] in tables && positions[u] / size < |tables[ids[u]]|
        invariant mapped == P.SlotMapping(size, tables, ids[..t], positions[..t])
      {
        if ids[t] !in tables || positions[t] / size >= |tables[ids[t]]| {
          return None;
        }
        mapped := mapped + [tables[ids[t]][positions[t] / size] * size + positions[t] % size];
      }
      assert ids[..|ids|] == ids && positions[..|positions|] == positions;
      slots := Some(mapped);
    }

    method AppendSlots(layer: nat, kvs: seq<KV>, slots: seq<nat>)
      requires layer < pool.Length && |slots| == |kvs|
      modifies pool
      ensures pool[..] == old(pool[..])[layer := PackedForward.AppendSlots(old(pool[..])[layer], slots, kvs)]
    {
      pool[layer] := Append(pool[layer], slots, kvs);
    }

    /** Commits in dict order; stops with an error at the first length its table does not cover. */
    method CommitLengths(ends: seq<(nat, nat)>) returns (failed: bool)
      requires Valid()
      modifies this`lengths
      ensures Valid()
      ensures failed <==> Committable(size, tables, ends) < |ends|
      ensures State() == old(State()).Commit(ends[..Committable(size, tables, ends)])
    {
      hide Cache.Valid, BlocksFor;
      var i := 0;
      while i < |ends|
        invariant 0 <= i <= |ends| && Valid()
        invariant Committable(size, tables, ends) == i + Committable(size, tables, ends[i..])
        invariant State() == old(State()).Commit(ends[..i])
      {
        var (id, length) := ends[i];
        assert ends[i..][1..] == ends[i + 1..] && ends[..i + 1][..i] == ends[..i];
        assert [(id, length)][..0] == [];
        if id !in tables || BlocksFor(size, length) > |tables[id]| {
          return true;
        }
        CommitOne(id, length);
        i := i + 1;
      }
      failed := false;
    }

    method CommitOne(id: nat, length: nat)
      requires Valid() && id in tables && BlocksFor(size, length) <= |tables[id]|
      modifies this`lengths
      ensures Valid() && State() == old(State()).Commit([(id, length)])
    {
      ghost var before := State();
      lengths := lengths[id := Larger(lengths[id], length)];
      assert lengths[id] == before.lengths[id] ==> lengths == before.lengths;
      assert [(id, length)][..0] == [];
      ValidFrame(before, State());
    }

    /** New contents for the whole pool, layer by layer. */
    method Overwrite(written: seq<Layer>)
      requires Valid() && |written| == pool.Length && forall l :: 0 <= l < pool.Length ==> |written[l]| == |pool[l]|
      modifies pool
      ensures Valid() && State() == old(State()).(pool := written)
    {
      ghost var before := State();
      forall l | 0 <= l < pool.Length {
        pool[l] := written[l];
      }
      assert pool[..] == written;
      ValidFrame(before, State());
    }

    method AllocatedTokens(id: nat) returns (n: nat)
      ensures n == State().AllocatedTokens(id)
    {
      n := (if id in tables then |tables[id]| else 0) * size;
    }

    method Release(id: nat)
      requires Valid()
      modifies this, allocator
      ensures Valid() && State() == old(State()).Release(id)
    {
      ReleaseFacts(State(), id);
      if id in tables {
        var freed := allocator.FreeFor(Request(id));
        tables := tables - {id};
      }
      lengths := lengths - {id};
    }

    // -- reads ---------------------------------------------------------------------------------------------

    /** The logical window over the first `n` positions; none when the table does not cover them. */
    method View(id: nat, layer: nat, n: nat) returns (window: Option<seq<KV>>)
      requires Valid() && id in tables && layer < pool.Length
      ensures window.Some? <==> BlocksFor(size, n) <= |tables[id]|
      ensures window.Some? ==> window.value == K.View(pool[layer], size, tables[id], n)
    {
      hide Cache.Valid;
      if BlocksFor(size, n) > |tables[id]| {
        return None;
      }
      var gathered: seq<KV> := [];
      for j := 0 to n
        invariant gathered == K.View(pool[layer], size, tables[id], j)
      {
        PositionInTable(size, j, n, |tables[id]|);
        gathered := gathered + [Read(pool[layer], tables[id][j / size] * size + j % size)];
      }
      window := Some(gathered);
    }

    method Stats() returns (r: CacheStats)
      requires Valid()
      ensures r.blocksTotal == allocator.total && r.blocksUsed + |allocator.free| == allocator.total
      ensures r.prefixBlocks == PrefixBlocks(prefixes) && r.hits == hits && r.misses == misses
      ensures forall ids: seq<nat> :: ListsResidents(State(), ids) ==>
        && r.requestBlocks == TableBlocks(State(), ids)
        && r.occupiedSlots == LengthsOf(State(), ids) + PrefixTokens(prefixes) <= r.reservedSlots
        && r.fragmentedSlots == r.reservedSlots - r.occupiedSlots
      ensures r.reservedSlots == r.blocksUsed * size
    {
      var used := |allocator.owner|;
      var prefixBlocks, prefixTokens := 0, 0;
      for i := 0 to |prefixes|
        invariant prefixBlocks + PrefixBlocks(prefixes[i..]) == PrefixBlocks(prefixes)
        invariant prefixTokens + PrefixTokens(prefixes[i..]) == PrefixTokens(prefixes)
      {
        assert prefixes[i..][1..] == prefixes[i + 1..];
        prefixBlocks, prefixTokens := prefixBlocks + |prefixes[i].blocks|, prefixTokens + prefixes[i].length;
      }
      var committed := SumValues(lengths);
      var occupied := committed + prefixTokens;
      var reserved := used * size;
      r := CacheStats(allocator.total, used, used - prefixBlocks, prefixBlocks, reserved, occupied,
                      if reserved >= occupied then reserved - occupied else 0, hits, misses);
      forall ids: seq<nat> | ListsResidents(State(), ids)
        ensures r.requestBlocks == TableBlocks(State(), ids)
        ensures LengthsOf(State(), ids) == SumOver(lengths, lengths.Keys)
        ensures LengthsOf(State(), ids) + PrefixTokens(prefixes) <= reserved {
        StatsFacts(State(), ids);
        LengthsSum(State(), ids);
        assert Elements(ids) == lengths.Keys;
      }
      SetOfNoDup(allocator.keys);
      assert Elements(allocator.keys) == allocator.owner.Keys;
    }
  }

  lemma {:induction false} GrowShape(c: Cache, ids: seq<nat>, counts: seq<nat>)
    requires |ids| == |counts| && Sum(counts) <= |c.alloc.free|
    ensures var g := c.Grow(ids, counts); g == c.(alloc := g.alloc, tables := g.tables)
  {
    if ids != [] {
      GrowShape(c, ids[..|ids| - 1], counts[..|ids| - 1]);
    }
  }

  method Total(s: seq<nat>) returns (sum: nat)
    ensures sum == Sum(s)
  {
    sum := 0;
    for i := 0 to |s|
      invariant sum == Sum(s[..i])
    {
      assert s[..i + 1][..i] == s[..i];
      sum := sum + s[i];
    }
    assert s[..|s|] == s;
  }
}
