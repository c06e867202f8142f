/** What the slots contain: the KV of exactly the token prefix they stand for, whatever the cache does. */
module KvCacheContent {
  import opened Lists
  import opened Allocator
  import opened Transformer
  import opened KvCache
  import opened KvCacheValid

  /** The first `n` positions of a table hold the KV of the first `n` tokens, at every layer. */
  ghost predicate Holds(m: Model, pool: seq<Layer>, size: Positive, table: seq<nat>, toks: seq<Token>, n: nat) {
    && n <= |toks| && |pool| == m.layers
    && forall l, p :: 0 <= l < m.layers && 0 <= p < n ==>
         Read(pool[l], Slot(size, table, p)) == KVAt(m, toks, l, p)
  }

  /** `hist[r]` is everything request `r` has been told: prompt, then generated tokens. */
  ghost predicate Agrees(m: Model, c: Cache, hist: seq<seq<Token>>) {
    && |c.pool| == m.layers
    && (forall r :: r in c.tables ==>
          r < |hist| && r in c.lengths && Holds(m, c.pool, c.size, c.tables[r], hist[r], c.lengths[r]))
    && (forall e :: e in c.prefixes ==> Holds(m, c.pool, c.size, e.blocks, e.key, e.length))
  }

  lemma {:induction false} HoldsMoves(m: Model, pool: seq<Layer>, size: Positive, table: seq<nat>, table': seq<nat>,
                   toks: seq<Token>, toks': seq<Token>, n: nat, n': nat)
    requires Holds(m, pool, size, table, toks, n)
    requires table <= table' && BlocksFor(size, n) <= |table|
    requires n' <= n && n' <= |toks'| && toks[..n'] == toks'[..n']
    ensures Holds(m, pool, size, table', toks', n')
  {
    forall l, p | 0 <= l < m.layers && 0 <= p < n'
      ensures Read(pool[l], Slot(size, table', p)) == KVAt(m, toks', l, p) {
      PositionInTable(size, p, n, |table|);
      assert Slot(size, table', p) == Slot(size, table, p);
      assert toks[..p + 1] == toks[..n'][..p + 1] == toks'[..p + 1];
      KVPrefix(m, toks, toks', l, p);
    }
  }

  /** Histories may only get longer, and new requests may join. */
  ghost predicate HistoriesGrow(hist: seq<seq<Token>>, hist': seq<seq<Token>>) {
    |hist| <= |hist'| && forall r :: 0 <= r < |hist| ==> hist[r] <= hist'[r]
  }

  lemma {:induction false} AgreesMoreTokens(m: Model, c: Cache, hist: seq<seq<Token>>, hist': seq<seq<Token>>)
    requires c.Valid() && Agrees(m, c, hist) && HistoriesGrow(hist, hist')
    ensures Agrees(m, c, hist')
  {
    forall r | r in c.tables ensures Holds(m, c.pool, c.size, c.tables[r], hist'[r], c.lengths[r]) {
      HoldsMoves(m, c.pool, c.size, c.tables[r], c.tables[r], hist[r], hist'[r], c.lengths[r], c.lengths[r]);
    }
  }

  /** Keeping the pool and only growing tables or dropping tables and entries keeps the agreement. */
  lemma {:induction false} AgreesSamePool(m: Model, c: Cache, c': Cache, hist: seq<seq<Token>>)
    requires c.Valid() && Agrees(m, c, hist)
    requires c'.size == c.size && c'.pool == c.pool
    requires forall r :: r in c'.tables ==> r < |hist| && r in c'.lengths
    requires forall r :: r in c'.tables && r in c.tables ==>
      c.tables[r] <= c'.tables[r] && c'.lengths[r] <= c.lengths[r]
    requires forall r :: r in c'.tables && r !in c.tables ==> c'.lengths[r] == 0
    requires forall e :: e in c'.prefixes ==> e in c.prefixes
    ensures Agrees(m, c', hist)
  {
    forall r | r in c'.tables ensures Holds(m, c'.pool, c'.size, c'.tables[r], hist[r], c'.lengths[r]) {
      if r in c.tables {
        HoldsMoves(m, c.pool, c.size, c.tables[r], c'.tables[r], hist[r], hist[r], c.lengths[r], c'.lengths[r]);
      }
    }
  }

  // -- copying blocks ----------------------------------------------------------

  lemma {:induction false} IndexOfNoDup(s: seq<nat>, k: nat)
    requires NoDup(s) && k < |s|
    ensures IndexOf(s, s[k]) == Some(k)
  {
    var i := IndexOf(s, s[k]);
    assert s[k] in s;
    assert s[i.value] == s[k];
  }

  lemma {:induction false} CopyElsewhere(layer: Layer, size: Positive, source: seq<nat>, target: seq<nat>,
                                         table: seq<nat>, p: nat)
    requires |source| == |target| && p / size < |table| && table[p / size] !in target
    ensures Read(CopyLayer(layer, size, source, target), Slot(size, table, p)) == Read(layer, Slot(size, table, p))
  {
    SlotParts(size, table, p);
  }

  lemma {:induction false} CopyThere(layer: Layer, size: Positive, source: seq<nat>, target: seq<nat>, p: nat)
    requires |source| == |target| && p / size < |target| && NoDup(target)
    requires Slot(size, target, p) < |layer|
    ensures Read(CopyLayer(layer, size, source, target), Slot(size, target, p)) == Read(layer, Slot(size, source, p))
  {
    SlotParts(size, target, p);
    IndexOfNoDup(target, p / size);
  }

  lemma {:induction false} HoldsElsewhere(m: Model, pool: seq<Layer>, size: Positive, source: seq<nat>,
                                          target: seq<nat>, table: seq<nat>, toks: seq<Token>, n: nat)
    requires |source| == |target| && Holds(m, pool, size, table, toks, n)
    requires BlocksFor(size, n) <= |table| && forall b :: b in table ==> b !in target
    ensures Holds(m, CopyBlocks(pool, size, source, target), size, table, toks, n)
  {
    var pool' := CopyBlocks(pool, size, source, target);
    forall l, p | 0 <= l < m.layers && 0 <= p < n
      ensures Read(pool'[l], Slot(size, table, p)) == KVAt(m, toks, l, p) {
      PositionInTable(size, p, n, |table|);
      CopyElsewhere(pool[l], size, source, target, table, p);
    }
  }

  /** What the source blocks hold, the target blocks hold after the copy. */
  lemma {:induction false} HoldsThere(m: Model, pool: seq<Layer>, size: Positive, source: seq<nat>, target: seq<nat>,
                   toks: seq<Token>, n: nat, total: nat)
    requires |source| == |target| && Holds(m, pool, size, source, toks, n)
    requires BlocksFor(size, n) <= |target| && NoDup(target) && forall b :: b in target ==> b < total
    requires forall l :: 0 <= l < |pool| ==> |pool[l]| == total * size
    ensures Holds(m, CopyBlocks(pool, size, source, target), size, target, toks, n)
  {
    var pool' := CopyBlocks(pool, size, source, target);
    forall l, p | 0 <= l < m.layers && 0 <= p < n
      ensures Read(pool'[l], Slot(size, target, p)) == KVAt(m, toks, l, p) {
      PositionInTable(size, p, n, |target|);
      assert target[p / size] in target;
      SlotBound(size, target, p, total);
      CopyThere(pool[l], size, source, target, p);
    }
  }

  // -- restore -----------------------------------------------------------------

  ghost predicate Cached(prefixes: seq<Entry>, key: seq<Token>) {
    exists e :: e in prefixes && e.key == key
  }

  /** No block-aligned prefix longer than `k`, up to `top`, is cached. */
  ghost predicate NoneLonger(c: Cache, tokens: seq<Token>, k: nat, top: nat) {
    forall j :: k < j <= top && j <= |tokens| && j % c.size == 0 ==> !Cached(c.prefixes, tokens[..j])
  }

  lemma {:induction false} FindMeaning(prefixes: seq<Entry>, key: seq<Token>)
    ensures Find(prefixes, key).Some? <==> Cached(prefixes, key)
    ensures Find(prefixes, key).Some? ==> prefixes[Find(prefixes, key).value] in prefixes
  {
  }

  lemma {:induction false} BlocksOfEntry(c: Cache, e: Entry)
    requires c.Valid() && e in c.prefixes
    ensures BlocksFor(c.size, e.length) == |e.blocks| && NoDup(e.blocks)
    ensures forall b :: b in e.blocks ==> b < c.alloc.total && b !in c.alloc.free
  {
    assert c.EntryValid(e);
    BlocksForExact(c.size, |e.blocks|);
    OwnedFacts(c.alloc.keys, c.alloc.owner, Prefix(e.serial));
  }

  lemma {:induction false} BlocksOfTable(c: Cache, r: nat)
    requires c.Valid() && r in c.tables
    ensures NoDup(c.tables[r])
    ensures forall b :: b in c.tables[r] ==> b < c.alloc.total && b !in c.alloc.free
  {
    OwnedFacts(c.alloc.keys, c.alloc.owner, Request(r));
  }

  lemma {:induction false} TableVersusEntry(c: Cache, r: nat, e: Entry)
    requires c.Valid() && r in c.tables && e in c.prefixes
    ensures forall b :: !(b in c.tables[r] && b in e.blocks)
  {
    assert c.EntryValid(e);
    OwnersDisjoint(c.alloc, Request(r), Prefix(e.serial));
  }

  lemma {:induction false} TableVersusTable(c: Cache, r: nat, q: nat)
    requires c.Valid() && r in c.tables && q in c.tables && r != q
    ensures forall b :: !(b in c.tables[r] && b in c.tables[q])
  {
    OwnersDisjoint(c.alloc, Request(r), Request(q));
  }

  lemma {:induction false} SumOne(x: nat)
    ensures Sum([x]) == x
  {
    assert [x][..0] == [];
  }

  /** With room for the source blocks, the growth inside `restore_prefix` evicts nothing more. */
  lemma {:induction false} CopyInGrowth(c: Cache, id: nat, e: Entry)
    requires c.Valid() && e in c.prefixes && id in c.tables && c.tables[id] == []
    requires |e.blocks| <= |c.alloc.free|
    ensures c.EnsureCapacity([(id, e.length)]).0 == None
    ensures c.EnsureCapacity([(id, e.length)]).1.prefixes == c.prefixes
    ensures |c.EnsureCapacity([(id, e.length)]).1.tables[id]| == |e.blocks|
  {
    var required := [(id, e.length)];
    BlocksOfEntry(c, e);
    hide Cache.Valid, Cache.Grow;
    assert required[0] in required;
    assert Additions(c.size, c.tables, required) == [|e.blocks|];
    SumOne(|e.blocks|);
    EnsureCapacityFacts(c, required);
    assert Ids(required) == [id];
    GrowFacts(c, [id], [|e.blocks|]);
  }

  ghost predicate StartsWith(hist: seq<seq<Token>>, id: nat, tokens: seq<Token>) {
    id < |hist| && tokens <= hist[id]
  }

  lemma {:induction false} CopyShape(pool: seq<Layer>, size: Positive, source: seq<nat>, target: seq<nat>)
    requires |source| == |target|
    ensures var pool' := CopyBlocks(pool, size, source, target);
      |pool'| == |pool| && forall l :: 0 <= l < |pool| ==> |pool'[l]| == |pool[l]|
  {
  }

  /** Copying over the blocks of a request with no committed content loses nobody's content. */
  lemma {:induction false} CopyKeepsOthers(m: Model, g: Cache, id: nat, source: seq<nat>, hist: seq<seq<Token>>)
    requires g.Valid() && Agrees(m, g, hist) && id in g.tables && |g.tables[id]| == |source|
    ensures var pool' := CopyBlocks(g.pool, g.size, source, g.tables[id]);
      && (forall e :: e in g.prefixes ==> Holds(m, pool', g.size, e.blocks, e.key, e.length))
      && (forall r :: r in g.tables && r != id ==> Holds(m, pool', g.size, g.tables[r], hist[r], g.lengths[r]))
  {
    var target := g.tables[id];
    var pool' := CopyBlocks(g.pool, g.size, source, target);
    forall e | e in g.prefixes ensures Holds(m, pool', g.size, e.blocks, e.key, e.length) {
      BlocksOfEntry(g, e);
      TableVersusEntry(g, id, e);
      HoldsElsewhere(m, g.pool, g.size, source, target, e.blocks, e.key, e.length);
    }
    forall r | r in g.tables && r != id ensures Holds(m, pool', g.size, g.tables[r], hist[r], g.lengths[r]) {
      TableVersusTable(g, r, id);
      HoldsElsewhere(m, g.pool, g.size, source, target, g.tables[r], hist[r], g.lengths[r]);
    }
  }

  lemma {:induction false} CopyGivesContent(m: Model, g: Cache, id: nat, e: Entry, hist: seq<seq<Token>>)
    requires g.Valid() && Agrees(m, g, hist) && id in g.tables && |g.tables[id]| == |e.blocks|
    requires e in g.prefixes && id < |hist| && e.length <= |hist[id]| && hist[id][..e.length] == e.key
    ensures Holds(m, CopyBlocks(g.pool, g.size, e.blocks, g.tables[id]), g.size, g.tables[id], hist[id], e.length)
  {
    var target := g.tables[id];
    BlocksOfEntry(g, e);
    BlocksOfTable(g, id);
    HoldsThere(m, g.pool, g.size, e.blocks, target, e.key, e.length, g.alloc.total);
    assert |e.key| == e.length by {
      assert g.EntryValid(e);
    }
    assert e.key[..e.length] == e.key;
    HoldsMoves(m, CopyBlocks(g.pool, g.size, e.blocks, target), g.size, target, target,
               e.key, hist[id], e.length, e.length);
  }

  /** The copy gives the new request the entry's content and loses nobody else's. */
  lemma {:induction false} CopyInFacts(m: Model, g: Cache, id: nat, e: Entry, hist: seq<seq<Token>>)
    requires g.Valid() && Agrees(m, g, hist) && id in g.tables && |g.tables[id]| == |e.blocks|
    requires e in g.prefixes && id < |hist| && e.length <= |hist[id]| && hist[id][..e.length] == e.key
    ensures var c' := g.CopyIn(id, e, e.length);
      && c'.Valid() && Agrees(m, c', hist)
      && c'.tables == g.tables && c'.lengths == g.lengths[id := e.length] && e in c'.prefixes
      && c'.size == g.size && c'.limit == g.limit && c'.alloc == g.alloc
  {
    hide Cache.Valid, Holds, Find, MoveToEnd, CopyBlocks;
    CopyKeepsOthers(m, g, id, e.blocks, hist);
    CopyGivesContent(m, g, id, e, hist);
    FindMeaning(g.prefixes, e.key);
    MoveToEndFacts(g.prefixes, Find(g.prefixes, e.key).value);
    CopyInValid(g, id, e);
  }

  lemma {:induction false} CopyInValid(g: Cache, id: nat, e: Entry)
    requires g.Valid() && id in g.tables && e in g.prefixes && |g.tables[id]| == |e.blocks|
    ensures g.CopyIn(id, e, e.length).Valid()
  {
    CopyShape(g.pool, g.size, e.blocks, g.tables[id]);
    BlocksOfEntry(g, e);
    FindMeaning(g.prefixes, e.key);
    var k := Find(g.prefixes, e.key).value;
    var h := g.(pool := CopyBlocks(g.pool, g.size, e.blocks, g.tables[id]), lengths := g.lengths[id := e.length],
                hits := g.hits + 1);
    ValidFrame(g, h);
    MoveToEndValid(h, k);
  }

  lemma {:induction false} GrownForHit(m: Model, c: Cache, g: Cache, id: nat, hist: seq<seq<Token>>)
    requires c.Valid() && Agrees(m, c, hist) && id in c.tables && c.tables[id] == [] && id < |hist|
    requires g.size == c.size && g.pool == c.pool && g.lengths == c.lengths && g.prefixes == c.prefixes
    requires forall r :: r in g.tables <==> r in c.tables
    requires forall r :: r in c.tables && r != id ==> g.tables[r] == c.tables[r]
    ensures Agrees(m, g, hist) && g.tables == c.tables[id := g.tables[id]]
  {
    AgreesSamePool(m, c, g, hist);
  }

  /** Growing the empty table to the entry's size. */
  lemma {:induction false} GrowForHit(m: Model, c: Cache, id: nat, e: Entry, hist: seq<seq<Token>>)
    requires c.Valid() && Agrees(m, c, hist) && e in c.prefixes && id < |hist|
    requires id in c.tables && c.tables[id] == [] && |e.blocks| <= |c.alloc.free|
    ensures var g := c.EnsureCapacity([(id, e.length)]).1;
      && g.Valid() && Agrees(m, g, hist) && g.prefixes == c.prefixes && g.lengths == c.lengths
      && id in g.tables && |g.tables[id]| == |e.blocks| && g.tables == c.tables[id := g.tables[id]]
      && g.size == c.size && g.limit == c.limit && g.alloc.total == c.alloc.total
  {
    var required := [(id, e.length)];
    assert Ids(required) == [id];
    EnsureCapacityFacts(c, required);
    CopyInGrowth(c, id, e);
    GrownForHit(m, c, c.EnsureCapacity(required).1, id, hist);
  }

  /** A hit: grow the empty table, then copy. */
  lemma {:induction false} RestoreHit(m: Model, c: Cache, id: nat, e: Entry, hist: seq<seq<Token>>)
    requires c.Valid() && Agrees(m, c, hist) && e in c.prefixes
    requires id in c.tables && c.tables[id] == [] && |e.blocks| <= |c.alloc.free|
    requires id < |hist| && e.length <= |hist[id]| && hist[id][..e.length] == e.key
    ensures var c' := c.EnsureCapacity([(id, e.length)]).1.CopyIn(id, e, e.length);
      && c'.Valid() && Agrees(m, c', hist)
      && id in c'.tables && c'.tables == c.tables[id := c'.tables[id]] && |c'.tables[id]| == |e.blocks|
      && c'.lengths == c.lengths[id := e.length] && e in c'.prefixes
      && c'.size == c.size && c'.limit == c.limit && c'.alloc.total == c.alloc.total
  {
    GrowForHit(m, c, id, e, hist);
    CopyInFacts(m, c.EnsureCapacity([(id, e.length)]).1, id, e, hist);
  }

  /** What `restore_prefix` owes the scheduler, hit or miss: `n` is the restored length. */
  ghost predicate Restored(m: Model, c: Cache, id: nat, n: nat, c': Cache, hist: seq<seq<Token>>) {
    && c'.Valid() && Agrees(m, c', hist)
    && c'.size == c.size && c'.limit == c.limit && c'.alloc.total == c.alloc.total
    && id in c'.tables && c'.tables == c.tables[id := c'.tables[id]]
    && |c'.tables[id]| == BlocksFor(c.size, n) && c'.lengths == c.lengths[id := n]
  }

  /** `e` is the longest cached aligned prefix, and it alone is left, and it still does not fit. */
  ghost predicate TooBigEntry(c: Cache, c': Cache, tokens: seq<Token>, top: nat, e: Entry) {
    && e in c.prefixes && 0 < e.length <= top && e.length <= |tokens| && tokens[..e.length] == e.key
    && NoneLonger(c, tokens, e.length, top)
    && OnlyProtected(c'.prefixes, Some(e.key)) && |c'.alloc.free| < |e.blocks|
  }

  ghost predicate TooBig(c: Cache, c': Cache, tokens: seq<Token>, top: nat) {
    exists e :: TooBigEntry(c, c', tokens, top, e)
  }

  lemma {:induction false} MissFacts(m: Model, c: Cache, id: nat, top: nat, hist: seq<seq<Token>>)
    requires c.Valid() && Agrees(m, c, hist)
    requires id in c.tables && c.tables[id] == [] && c.lengths[id] == 0
    ensures Restored(m, c, id, 0, c.Miss(top), hist)
  {
    BlocksForExact(c.size, 0);
    ValidFrame(c, c.Miss(top));
    assert c.tables[id := []] == c.tables && c.lengths[id := 0] == c.lengths;
  }

  /** One candidate of the restore loop that is in the cache. */
  lemma {:induction false} RestoreCandidate(m: Model, c: Cache, id: nat, e: Entry, top: nat, hist: seq<seq<Token>>)
    requires c.Valid() && Agrees(m, c, hist) && e in c.prefixes
    requires id in c.tables && c.tables[id] == [] && c.lengths[id] == 0
    requires id < |hist| && e.length <= |hist[id]| && hist[id][..e.length] == e.key
    ensures var d := c.Evict(|e.blocks|, Some(e.key));
      if |e.blocks| > |d.alloc.free| then
        Restored(m, c, id, 0, d.Miss(top), hist) && OnlyProtected(d.prefixes, Some(e.key))
      else
        var c' := d.EnsureCapacity([(id, e.length)]).1.CopyIn(id, e, e.length);
        Restored(m, c, id, e.length, c', hist) && e in c'.prefixes
  {
    EvictFacts(c, |e.blocks|, Some(e.key));
    var d := c.Evict(|e.blocks|, Some(e.key));
    AgreesSamePool(m, c, d, hist);
    if |e.blocks| > |d.alloc.free| {
      MissFacts(m, d, id, top, hist);
    } else {
      BlocksOfEntry(c, e);
      RestoreHit(m, d, id, e, hist);
    }
  }

  lemma {:induction false} PreviousMultiple(size: Positive, k: nat)
    requires k % size == 0 && k > 0
    ensures k >= size && (k - size) % size == 0
  {
    var q := k / size;
    assert k == q * size;
    assert q > 0 && (q - 1) * size == k - size;
    MultipleOf(size, q - 1, 0);
  }

  lemma {:induction false} NoneLongerStep(c: Cache, tokens: seq<Token>, k: nat, top: nat)
    requires k % c.size == 0 && c.size <= k <= top <= |tokens| && NoneLonger(c, tokens, k, top)
    requires !Cached(c.prefixes, tokens[..k])
    ensures NoneLonger(c, tokens, k - c.size, top)
  {
    forall j | k - c.size < j <= top && j % c.size == 0 ensures !Cached(c.prefixes, tokens[..j]) {
      PreviousMultiple(c.size, k);
      if j < k {
        MultiplesApart(c.size, k - c.size, j);
      }
    }
  }

  lemma {:induction false} RestoreFound(m: Model, c: Cache, id: nat, tokens: seq<Token>, k: nat, top: nat,
                                        hist: seq<seq<Token>>)
    requires c.Valid() && Agrees(m, c, hist) && StartsWith(hist, id, tokens)
    requires id in c.tables && c.tables[id] == [] && c.lengths[id] == 0
    requires 0 < k <= top <= |tokens| && NoneLonger(c, tokens, k, top)
    requires Find(c.prefixes, tokens[..k]).Some?
    ensures var (c', n) := c.RestoreFrom(id, tokens, k, top);
      && Restored(m, c, id, n, c', hist)
      && (n == k ==> Cached(c.prefixes, tokens[..n]) && Cached(c'.prefixes, tokens[..n]))
      && (n != k ==> n == 0 && TooBig(c, c', tokens, top))
  {
    var e := c.prefixes[Find(c.prefixes, tokens[..k]).value];
    assert e.length == k by {
      assert c.EntryValid(e);
    }
    assert hist[id][..k] == tokens[..k];
    RestoreCandidate(m, c, id, e, top, hist);
    var d := c.Evict(|e.blocks|, Some(e.key));
    if |e.blocks| > |d.alloc.free| {
      assert TooBigEntry(c, d.Miss(top), tokens, top, e);
    }
  }

  /**
   * What the loop of `restore_prefix` leaves. A hit is the longest cached aligned prefix and its source
   * survives; a miss means that nothing is cached, or that the longest entry does not fit next to the other
   * requests even when every other entry has been evicted.
   */
  ghost predicate LongestRestored(m: Model, c: Cache, id: nat, tokens: seq<Token>, top: nat, n: nat, c': Cache,
                                  hist: seq<seq<Token>>)
    requires top <= |tokens| && n <= |tokens|
  {
    && Restored(m, c, id, n, c', hist) && n % c.size == 0
    && (n > 0 ==> Cached(c.prefixes, tokens[..n]) && Cached(c'.prefixes, tokens[..n]) && NoneLonger(c, tokens, n, top))
    && (n == 0 ==> NoneLonger(c, tokens, 0, top) || TooBig(c, c', tokens, top))
  }

  lemma {:induction false} RestoreNothing(m: Model, c: Cache, id: nat, tokens: seq<Token>, top: nat,
                                          hist: seq<seq<Token>>)
    requires c.Valid() && Agrees(m, c, hist) && top <= |tokens| && NoneLonger(c, tokens, 0, top)
    requires id in c.tables && c.tables[id] == [] && c.lengths[id] == 0
    ensures LongestRestored(m, c, id, tokens, top, 0, c.Miss(top), hist)
  {
    MissFacts(m, c, id, top, hist);
  }

  lemma {:induction false} RestoreHere(m: Model, c: Cache, id: nat, tokens: seq<Token>, k: nat, top: nat,
                                       hist: seq<seq<Token>>)
    requires c.Valid() && Agrees(m, c, hist) && StartsWith(hist, id, tokens)
    requires id in c.tables && c.tables[id] == [] && c.lengths[id] == 0
    requires 0 < k <= top <= |tokens| && k % c.size == 0 && NoneLonger(c, tokens, k, top)
    requires Find(c.prefixes, tokens[..k]).Some?
    ensures var (c', n) := c.RestoreFrom(id, tokens, k, top); LongestRestored(m, c, id, tokens, top, n, c', hist)
  {
    hide Restored, Cached, TooBig, Cache.Valid, Agrees;
    RestoreFound(m, c, id, tokens, k, top, hist);
  }

  lemma {:induction false} RestoreFromFacts(m: Model, c: Cache, id: nat, tokens: seq<Token>, k: nat, top: nat,
                                            hist: seq<seq<Token>>)
    requires c.Valid() && Agrees(m, c, hist) && StartsWith(hist, id, tokens)
    requires id in c.tables && c.tables[id] == [] && c.lengths[id] == 0
    requires k <= top <= |tokens| && k % c.size == 0 && NoneLonger(c, tokens, k, top)
    ensures var (c', n) := c.RestoreFrom(id, tokens, k, top); LongestRestored(m, c, id, tokens, top, n, c', hist)
    decreases k
  {
    hide LongestRestored, NoneLonger, Cached, Cache.Valid, Agrees;
    if k == 0 {
      RestoreNothing(m, c, id, tokens, top, hist);
    } else {
      FindMeaning(c.prefixes, tokens[..k]);
      match Find(c.prefixes, tokens[..k])
      case None =>
        PreviousMultiple(c.size, k);
        NoneLongerStep(c, tokens, k, top);
        RestoreFromFacts(m, c, id, tokens, k - c.size, top, hist);
      case Some(i) =>
        RestoreHere(m, c, id, tokens, k, top, hist);
    }
  }

  // -- store --------------------------------------------------------------------

  lemma {:induction false} MakeRoomFacts(c: Cache, blocks: nat)
    requires c.Valid() && blocks <= c.limit
    ensures var c' := c.MakeRoom(blocks);
      && c'.Valid() && SameRequests(c, c') && c'.serial == c.serial
      && (forall e :: e in c'.prefixes ==> e in c.prefixes)
      && PrefixBlocks(c'.prefixes) + blocks <= c.limit
    decreases |c.prefixes|
  {
    if c.prefixes == [] || PrefixBlocks(c.prefixes) + blocks <= c.limit {
    } else {
      DropOldestFacts(c);
      assert c.prefixes == [c.prefixes[0]] + c.prefixes[1..];
      MakeRoomFacts(c.DropOldest(), blocks);
    }
  }

  lemma {:induction false} EvictFewerBlocks(c: Cache, needed: nat)
    ensures PrefixBlocks(c.Evict(needed, None).prefixes) <= PrefixBlocks(c.prefixes)
    decreases |c.prefixes|
  {
    if c.prefixes == [] || |c.alloc.free| >= needed {
    } else {
      EvictFewerBlocks(c.DropOldest(), needed);
    }
  }

  lemma {:induction false} CopyOutTables(c: Cache, id: nat, key: seq<Token>, blocks: nat)
    requires c.Valid() && blocks <= |c.alloc.free| && id in c.tables && blocks <= |c.tables[id]|
    ensures var c' := c.CopyOut(id, key, blocks); c'.alloc.Valid() && c'.TablesValid() && c'.PoolValid()
  {
    hide Cache.PrefixesValid, Blocks.Valid, Blocks.Allocate, Blocks.Popped, CopyBlocks;
    AllocateFacts(c.alloc, Prefix(c.serial + 1), blocks);
    AllocateTotal(c.alloc, Prefix(c.serial + 1), blocks);
    CopyShape(c.pool, c.size, c.tables[id][..blocks], c.alloc.Popped(blocks));
  }

  lemma {:induction false} AllocateTotal(a: Blocks, o: Owner, n: nat)
    requires n <= |a.free|
    ensures a.Allocate(o, n).total == a.total && |a.Popped(n)| == n
  {
  }

  lemma {:induction false} NewSerial(c: Cache)
    requires c.Valid()
    ensures c.alloc.OwnedBy(Prefix(c.serial + 1)) == []
    ensures forall e :: e in c.prefixes ==> e.serial != c.serial + 1
  {
    forall e | e in c.prefixes ensures e.serial != c.serial + 1 {
      assert c.EntryValid(e);
    }
  }

  lemma {:induction false} StoredEntries(c: Cache, c': Cache, e: Entry)
    requires c.Valid() && c'.prefixes == c.prefixes + [e] && c'.size == c.size && c'.serial == c.serial + 1
    requires forall x :: x in c.prefixes ==> c'.alloc.OwnedBy(Prefix(x.serial)) == c.alloc.OwnedBy(Prefix(x.serial))
    requires c'.EntryValid(e)
    ensures forall x :: x in c'.prefixes ==> c'.EntryValid(x)
  {
    forall x | x in c'.prefixes ensures c'.EntryValid(x) {
      if x in c.prefixes {
        assert c.EntryValid(x);
      }
    }
  }

  lemma {:induction false} StoredDistinct(prefixes: seq<Entry>, e: Entry)
    requires forall i, j :: 0 <= i < j < |prefixes| ==>
      prefixes[i].key != prefixes[j].key && prefixes[i].serial != prefixes[j].serial
    requires forall x :: x in prefixes ==> x.key != e.key && x.serial != e.serial
    ensures var all := prefixes + [e];
      forall i, j :: 0 <= i < j < |all| ==> all[i].key != all[j].key && all[i].serial != all[j].serial
  {
    assert forall i :: 0 <= i < |prefixes| ==> prefixes[i] in prefixes;
  }

  lemma {:induction false} PrefixBlocksSnoc(prefixes: seq<Entry>, e: Entry)
    ensures PrefixBlocks(prefixes + [e]) == PrefixBlocks(prefixes) + |e.blocks|
  {
    PrefixBlocksConcat(prefixes, [e]);
    assert [e][1..] == [];
    assert PrefixBlocks([e]) == |e.blocks| + PrefixBlocks([]);
  }

  lemma {:induction false} StoredSerials(c: Cache, c': Cache, e: Entry)
    requires c.Valid() && c'.prefixes == c.prefixes + [e]
    requires forall n :: n != e.serial ==> c'.alloc.OwnedBy(Prefix(n)) == c.alloc.OwnedBy(Prefix(n))
    ensures forall n :: (forall x :: x in c'.prefixes ==> x.serial != n) ==> c'.alloc.OwnedBy(Prefix(n)) == []
  {
    forall n | forall x :: x in c'.prefixes ==> x.serial != n ensures c'.alloc.OwnedBy(Prefix(n)) == [] {
      assert c'.prefixes[|c.prefixes|] == e;
      assert forall x :: x in c.prefixes ==> x in c'.prefixes;
    }
  }

  lemma {:induction false} CopyOutValid(c: Cache, id: nat, key: seq<Token>, blocks: nat)
    requires c.Valid() && 0 < blocks <= |c.alloc.free| && id in c.tables && blocks <= |c.tables[id]|
    requires |key| == blocks * c.size && PrefixBlocks(c.prefixes) + blocks <= c.limit
    requires forall x :: x in c.prefixes ==> x.key != key
    ensures c.CopyOut(id, key, blocks).Valid()
  {
    hide CopyBlocks, Cache.PoolValid, Cache.TablesValid, Blocks.Valid, Blocks.Allocate;
    CopyOutTables(c, id, key, blocks);
    AllocateFacts(c.alloc, Prefix(c.serial + 1), blocks);
    NewSerial(c);
    var ids := c.alloc.Popped(blocks);
    assert [] + ids == ids;
    StoredEntriesValid(c, c.CopyOut(id, key, blocks), Entry(key, c.serial + 1, ids, |key|));
  }

  lemma {:induction false} StoredEntriesValid(c: Cache, c': Cache, e: Entry)
    requires c.Valid() && c'.prefixes == c.prefixes + [e] && c'.size == c.size && c'.limit == c.limit
    requires c'.serial == e.serial == c.serial + 1 && c'.EntryValid(e)
    requires forall x :: x in c.prefixes ==> x.key != e.key && x.serial != e.serial
    requires forall n :: n != e.serial ==> c'.alloc.OwnedBy(Prefix(n)) == c.alloc.OwnedBy(Prefix(n))
    requires PrefixBlocks(c.prefixes) + |e.blocks| <= c.limit
    ensures c'.PrefixesValid()
  {
    StoredEntries(c, c', e);
    StoredDistinct(c.prefixes, e);
    PrefixBlocksSnoc(c.prefixes, e);
    StoredSerials(c, c', e);
  }

  /** The leading blocks of a request's table hold the KV of the leading tokens. */
  lemma {:induction false} LeadingBlocks(m: Model, c: Cache, id: nat, key: seq<Token>, blocks: nat,
                                         hist: seq<seq<Token>>)
    requires c.Valid() && Agrees(m, c, hist) && id in c.tables && blocks <= |c.tables[id]|
    requires |key| == blocks * c.size && key <= hist[id] && |key| <= c.lengths[id]
    ensures Holds(m, c.pool, c.size, c.tables[id][..blocks], key, |key|)
  {
    BlocksForExact(c.size, blocks);
    forall l, p | 0 <= l < m.layers && 0 <= p < |key|
      ensures Read(c.pool[l], Slot(c.size, c.tables[id][..blocks], p)) == KVAt(m, key, l, p) {
      LeadingSlot(c.size, c.tables[id], |key|, blocks, p);
      SamePrefixKV(m, key, hist[id], l, p);
    }
  }

  lemma {:induction false} LeadingSlot(size: Positive, table: seq<nat>, n: nat, blocks: nat, p: nat)
    requires p < n && BlocksFor(size, n) <= blocks <= |table|
    ensures Slot(size, table[..blocks], p) == Slot(size, table, p)
  {
    PositionInTable(size, p, n, blocks);
  }

  lemma {:induction false} SamePrefixKV(m: Model, a: seq<Token>, b: seq<Token>, l: nat, p: nat)
    requires a <= b && p < |a|
    ensures KVAt(m, a, l, p) == KVAt(m, b, l, p)
  {
    assert a[..p + 1] == b[..p + 1];
    KVPrefix(m, a, b, l, p);
  }

  /** Copying onto free blocks loses nobody's content. */
  lemma {:induction false} CopyToFree(m: Model, c: Cache, source: seq<nat>, hist: seq<seq<Token>>)
    requires c.Valid() && Agrees(m, c, hist) && |source| <= |c.alloc.free|
    ensures var pool' := CopyBlocks(c.pool, c.size, source, c.alloc.Popped(|source|));
      && (forall e :: e in c.prefixes ==> Holds(m, pool', c.size, e.blocks, e.key, e.length))
      && (forall r :: r in c.tables ==> Holds(m, pool', c.size, c.tables[r], hist[r], c.lengths[r]))
  {
    var target := c.alloc.Popped(|source|);
    PoppedFacts(c.alloc, |source|);
    var pool' := CopyBlocks(c.pool, c.size, source, target);
    forall e | e in c.prefixes ensures Holds(m, pool', c.size, e.blocks, e.key, e.length) {
      BlocksOfEntry(c, e);
      HoldsElsewhere(m, c.pool, c.size, source, target, e.blocks, e.key, e.length);
    }
    forall r | r in c.tables ensures Holds(m, pool', c.size, c.tables[r], hist[r], c.lengths[r]) {
      BlocksOfTable(c, r);
      HoldsElsewhere(m, c.pool, c.size, source, target, c.tables[r], hist[r], c.lengths[r]);
    }
  }

  lemma {:induction false} CopyOutAgrees(m: Model, c: Cache, id: nat, key: seq<Token>, blocks: nat,
                                         hist: seq<seq<Token>>)
    requires c.Valid() && Agrees(m, c, hist) && 0 < blocks <= |c.alloc.free|
    requires id in c.tables && blocks <= |c.tables[id]|
    requires |key| == blocks * c.size && key <= hist[id] && |key| <= c.lengths[id]
    ensures Agrees(m, c.CopyOut(id, key, blocks), hist)
  {
    var target, source := c.alloc.Popped(blocks), c.tables[id][..blocks];
    PoppedFacts(c.alloc, blocks);
    CopyToFree(m, c, source, hist);
    LeadingBlocks(m, c, id, key, blocks, hist);
    BlocksForExact(c.size, blocks);
    HoldsThere(m, c.pool, c.size, source, target, key, |key|, c.alloc.total);
  }

  /** Making room for a new entry disturbs no request. */
  lemma {:induction false} RoomFacts(m: Model, c: Cache, blocks: nat, hist: seq<seq<Token>>)
    requires c.Valid() && Agrees(m, c, hist) && blocks <= c.limit
    ensures var d := c.MakeRoom(blocks).Evict(blocks, None);
      && d.Valid() && Agrees(m, d, hist) && SameRequests(c, d)
      && (forall e :: e in d.prefixes ==> e in c.prefixes)
      && PrefixBlocks(d.prefixes) + blocks <= c.limit
  {
    MakeRoomFacts(c, blocks);
    var r := c.MakeRoom(blocks);
    EvictFacts(r, blocks, None);
    EvictFewerBlocks(r, blocks);
    AgreesSamePool(m, c, r.Evict(blocks, None), hist);
  }

  /** Retaining a new prefix on blocks taken from the free list. */
  lemma {:induction false} RetainFacts(m: Model, d: Cache, id: nat, key: seq<Token>, blocks: nat, hist: seq<seq<Token>>)
    requires d.Valid() && Agrees(m, d, hist) && 0 < blocks <= |d.alloc.free|
    requires id in d.tables && |key| == blocks * d.size && key <= hist[id] && |key| <= d.lengths[id]
    requires PrefixBlocks(d.prefixes) + blocks <= d.limit
    requires forall x :: x in d.prefixes ==> x.key != key
    ensures var c' := d.CopyOut(id, key, blocks);
      && c'.Valid() && Agrees(m, c', hist) && c'.tables == d.tables && c'.lengths == d.lengths
      && c'.size == d.size && c'.limit == d.limit && c'.alloc.total == d.alloc.total
      && Cached(c'.prefixes, key)
  {
    BlocksForExact(d.size, blocks);
    BlocksForMonotone(d.size, |key|, d.lengths[id]);
    CopyOutValid(d, id, key, blocks);
    CopyOutAgrees(m, d, id, key, blocks, hist);
    assert d.CopyOut(id, key, blocks).prefixes[|d.prefixes|].key == key;
  }

  lemma {:induction false} TouchFacts(m: Model, c: Cache, k: nat, hist: seq<seq<Token>>)
    requires c.Valid() && Agrees(m, c, hist) && k < |c.prefixes|
    ensures var c' := c.(prefixes := MoveToEnd(c.prefixes, k));
      c'.Valid() && Agrees(m, c', hist) && Cached(c'.prefixes, c.prefixes[k].key)
  {
    MoveToEndFacts(c.prefixes, k);
    MoveToEndValid(c, k);
    assert c.prefixes[k] in MoveToEnd(c.prefixes, k);
  }

  /**
   * `store_prefix` never takes a request's block, never exceeds the prefix budget, and only ever retains a
   * prefix whose content is the KV of exactly its key.
   */
  lemma {:induction false} StoreFacts(m: Model, c: Cache, id: nat, tokens: seq<Token>, hist: seq<seq<Token>>)
    requires c.Valid() && Agrees(m, c, hist) && StartsWith(hist, id, tokens)
    ensures var (c', n) := c.Store(id, tokens);
      && c'.Valid() && Agrees(m, c', hist)
      && c'.size == c.size && c'.limit == c.limit && c'.alloc.total == c.alloc.total
      && c'.tables == c.tables && c'.lengths == c.lengths
      && (n > 0 ==> n == Aligned(c.size, |tokens|) && Cached(c'.prefixes, tokens[..n]))
      && (n == 0 ==> c'.pool == c.pool)
  {
    var length := Aligned(c.size, |tokens|);
    var blocks, key := length / c.size, tokens[..length];
    WholeBlocks(c.size, length);
    if c.limit > 0 && length > 0 && blocks <= c.limit {
      match Find(c.prefixes, key)
      case Some(k) =>
        TouchFacts(m, c, k, hist);
      case None =>
        if id in c.lengths && c.lengths[id] >= length {
          RoomFacts(m, c, blocks, hist);
          var d := c.MakeRoom(blocks).Evict(blocks, None);
          if blocks <= |d.alloc.free| {
            RetainFacts(m, d, id, key, blocks, hist);
          }
        }
    }
  }

  /** After both evictions the new entry fits exactly if it fits next to the requests' own blocks. */
  lemma {:induction false} RoomExactly(c: Cache, blocks: nat, ids: seq<nat>)
    requires c.Valid() && ListsResidents(c, ids) && blocks <= c.limit
    ensures blocks <= |c.MakeRoom(blocks).Evict(blocks, None).alloc.free| <==>
      TableBlocks(c, ids) + blocks <= c.alloc.total
  {
    hide Cache.Valid;
    MakeRoomFacts(c, blocks);
    EvictFacts(c.MakeRoom(blocks), blocks, None);
    var d := c.MakeRoom(blocks).Evict(blocks, None);
    TableBlocksSame(c, d, ids);
    BlockConservation(d, ids);
    if |d.alloc.free| < blocks {
      NoneProtected(d.prefixes);
    }
  }

  /**
   * When `store_prefix` retains the prompt prefix: exactly if the prefix fits the budget and is either cached
   * already, or committed by the request and fits the pool next to the requests' own blocks. The retained
   * entry is the most recently used one.
   */
  lemma {:induction false} StoredExactly(c: Cache, id: nat, tokens: seq<Token>, ids: seq<nat>)
    requires c.Valid() && ListsResidents(c, ids)
    ensures var (c', n), length := c.Store(id, tokens), Aligned(c.size, |tokens|);
      && (n > 0 <==>
            && 0 < length && length / c.size <= c.limit
            && (Cached(c.prefixes, tokens[..length]) ||
                (id in c.lengths && c.lengths[id] >= length && TableBlocks(c, ids) + length / c.size <= c.alloc.total)))
      && (n > 0 ==> c'.prefixes != [] && c'.prefixes[|c'.prefixes| - 1].key == tokens[..length])
  {
    var length := Aligned(c.size, |tokens|);
    var blocks, key := length / c.size, tokens[..length];
    WholeBlocks(c.size, length);
    FindMeaning(c.prefixes, key);
    if length > 0 && blocks <= c.limit && Find(c.prefixes, key).None? && id in c.lengths && c.lengths[id] >= length {
      RoomExactly(c, blocks, ids);
      MakeRoomFacts(c, blocks);
      EvictFacts(c.MakeRoom(blocks), blocks, None);
      BlocksForMonotone(c.size, length, c.lengths[id]);
    }
  }

  // -- release ------------------------------------------------------------------

  /** Teardown of one request: retain its prompt prefix, give its blocks back, disturb nobody. */
  lemma {:induction false} TeardownFacts(m: Model, c: Cache, id: nat, tokens: seq<Token>, hist: seq<seq<Token>>)
    requires c.Valid() && Agrees(m, c, hist) && StartsWith(hist, id, tokens)
    ensures var c' := c.Store(id, tokens).0.Release(id);
      && c'.Valid() && Agrees(m, c', hist)
      && c'.size == c.size && c'.limit == c.limit && c'.alloc.total == c.alloc.total
      && c'.tables == c.tables - {id} && c'.lengths == c.lengths - {id}
  {
    StoreFacts(m, c, id, tokens, hist);
    var s := c.Store(id, tokens).0;
    ReleaseFacts(s, id);
    AgreesSamePool(m, s, s.Release(id), hist);
  }

  lemma {:induction false} EmptyTableAgrees(m: Model, c: Cache, id: nat, hist: seq<seq<Token>>)
    requires c.Valid() && Agrees(m, c, hist) && id !in c.tables && id < |hist|
    ensures c.CanReserve(id, 0)
    ensures var r := c.Reserve(id, 0);
      && r.Valid() && Agrees(m, r, hist) && r.tables == c.tables[id := []] && r.lengths == c.lengths[id := 0]
      && r.size == c.size && r.limit == c.limit && r.alloc.total == c.alloc.total && r.prefixes == c.prefixes
  {
    ReserveFacts(c, id);
    AgreesSamePool(m, c, c.Reserve(id, 0), hist);
  }

  /** Admission: an empty table, then the longest cached prefix; never a capacity error. */
  lemma {:induction false} AdmitFacts(m: Model, c: Cache, id: nat, tokens: seq<Token>, hist: seq<seq<Token>>)
    requires c.Valid() && Agrees(m, c, hist) && StartsWith(hist, id, tokens) && id !in c.tables && tokens != []
    ensures c.CanReserve(id, 0)
    ensures var (c', n) := c.Reserve(id, 0).Restore(id, tokens);
      && Restored(m, c, id, n, c', hist) && n < |tokens| && n % c.size == 0
  {
    EmptyTableAgrees(m, c, id, hist);
    var r := c.Reserve(id, 0);
    RestoreFacts(m, r, id, tokens, hist);
    RestoredOverEmpty(m, c, r, id, r.Restore(id, tokens).1, r.Restore(id, tokens).0, hist);
  }

  lemma {:induction false} RestoredOverEmpty(m: Model, c: Cache, r: Cache, id: nat, n: nat, c': Cache,
                                             hist: seq<seq<Token>>)
    requires Restored(m, r, id, n, c', hist)
    requires r.tables == c.tables[id := []] && r.lengths == c.lengths[id := 0]
    requires r.size == c.size && r.limit == c.limit && r.alloc.total == c.alloc.total
    ensures Restored(m, c, id, n, c', hist)
  {
    assert r.tables[id := c'.tables[id]] == c.tables[id := c'.tables[id]];
    assert r.lengths[id := n] == c.lengths[id := n];
  }

  /** `restore_prefix` as a whole: always strictly shorter than the prompt, so something is left to feed. */
  lemma {:induction false} RestoreFacts(m: Model, r: Cache, id: nat, tokens: seq<Token>, hist: seq<seq<Token>>)
    requires r.Valid() && Agrees(m, r, hist) && StartsWith(hist, id, tokens) && tokens != []
    requires id in r.tables && r.tables[id] == [] && r.lengths[id] == 0
    ensures var (c', n) := r.Restore(id, tokens);
      && Restored(m, r, id, n, c', hist) && n < |tokens| && n % r.size == 0
      && (n > 0 ==> Cached(r.prefixes, tokens[..n]) && Cached(c'.prefixes, tokens[..n]))
      && (r.limit > 0 && n > 0 ==> NoneLonger(r, tokens, n, |tokens| - 1))
      && (r.limit > 0 && n == 0 ==>
            NoneLonger(r, tokens, 0, |tokens| - 1) || TooBig(r, c', tokens, Aligned(r.size, |tokens|)))
  {
    var top := Aligned(r.size, |tokens|);
    if r.limit > 0 {
      RestoreFromFacts(m, r, id, tokens, top, top, hist);
      NoneBetween(r, tokens, r.Restore(id, tokens).1, top);
    } else {
      BlocksForExact(r.size, 0);
      assert r.tables[id := []] == r.tables && r.lengths[id := 0] == r.lengths;
    }
  }

  /** No multiple of the block size lies between the aligned length and the prompt's last token. */
  lemma {:induction false} NoneBetween(c: Cache, tokens: seq<Token>, k: nat, top: nat)
    requires tokens != [] && top == Aligned(c.size, |tokens|)
    ensures NoneLonger(c, tokens, k, top) ==> NoneLonger(c, tokens, k, |tokens| - 1)
  {
    forall j | top < j <= |tokens| - 1 ensures j % c.size != 0 {
      if j % c.size == 0 {
        MultiplesApart(c.size, top, j);
      }
    }
  }

  lemma {:induction false} MultiplesApart(size: Positive, k: nat, j: nat)
    requires k % size == 0 && j % size == 0 && k < j
    ensures k + size <= j
  {
    var a, b := k / size, j / size;
    assert k == a * size && j == b * size;
    MulGap(a, b, size);
  }
}
