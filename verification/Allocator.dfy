/** The free-list block allocator. `Blocks` is the value of its fields; the class updates them in place. */
module Allocator {
  import opened Lists

  /** Owner strings: `req-N` for requests, `prefix-N` for retained prompt prefixes. */
  datatype Owner = Request(id: nat) | Prefix(serial: nat)

  datatype FreeError = SameBlockTwice | AlreadyFree | ForeignOwner

  /** `keys` is the insertion order of the owner dict, `owner` its contents. */
  datatype Blocks = Blocks(total: nat, free: seq<nat>, keys: seq<nat>, owner: map<nat, Owner>) {

    /** Free and owned blocks partition 0..total-1, each block with at most one owner. */
    ghost predicate Valid() {
      && NoDup(free) && NoDup(keys)
      && (forall b :: b in keys <==> b in owner)
      && (forall b :: b in free ==> b < total && b !in owner)
      && (forall b :: b in owner ==> b < total)
      && |free| + |keys| == total
    }

    function OwnedBy(o: Owner): seq<nat> {
      Owned(keys, owner, o)
    }

    /** `n` pops from the end of the free list, in pop order. */
    function Popped(n: nat): seq<nat>
      requires n <= |free|
    {
      seq(n, i requires 0 <= i < n => free[|free| - 1 - i])
    }

    function Allocate(o: Owner, n: nat): Blocks
      requires n <= |free|
    {
      var ids := Popped(n);
      Blocks(total, free[..|free| - n], keys + ids, owner + (map b | b in ids :: o))
    }

    function FreeCheck(ids: seq<nat>, o: Owner): Option<FreeError> {
      if exists i, j | 0 <= i < j < |ids| :: ids[i] == ids[j] then Some(SameBlockTwice)
      else FirstBadOwner(ids, o)
    }

    function FirstBadOwner(ids: seq<nat>, o: Owner): Option<FreeError> {
      if ids == [] then None
      else if ids[0] !in owner then Some(AlreadyFree)
      else if owner[ids[0]] != o then Some(ForeignOwner)
      else FirstBadOwner(ids[1..], o)
    }

    /** The state after the second loop of `free`, every check having passed. */
    function Freed(ids: seq<nat>): Blocks {
      Blocks(total, free + ids, Without(keys, ids), owner - (set b | b in ids))
    }
  }

  function Owned(keys: seq<nat>, owner: map<nat, Owner>, o: Owner): seq<nat> {
    if keys == [] then [] else
    var init, last := keys[..|keys| - 1], keys[|keys| - 1];
    if last in owner && owner[last] == o then Owned(init, owner, o) + [last] else Owned(init, owner, o)
  }

  lemma {:induction false} OwnedFacts(keys: seq<nat>, owner: map<nat, Owner>, o: Owner)
    ensures forall b :: b in Owned(keys, owner, o) <==> b in keys && b in owner && owner[b] == o
    ensures NoDup(keys) ==> NoDup(Owned(keys, owner, o))
  {
    if keys != [] {
      var init, last := keys[..|keys| - 1], keys[|keys| - 1];
      assert keys == init + [last];
      OwnedFacts(init, owner, o);
      if NoDup(keys) {
        assert last !in init;
      }
    }
  }

  /** `Owned` looks only at the owners of the listed blocks. */
  lemma {:induction false} OwnedSame(keys: seq<nat>, owner: map<nat, Owner>, owner': map<nat, Owner>, o: Owner)
    requires forall b :: b in keys ==> ((b in owner && owner[b] == o) <==> (b in owner' && owner'[b] == o))
    ensures Owned(keys, owner, o) == Owned(keys, owner', o)
  {
    if keys != [] {
      assert keys[|keys| - 1] in keys;
      OwnedSame(keys[..|keys| - 1], owner, owner', o);
    }
  }

  lemma {:induction false} OwnedAppend(keys: seq<nat>, ids: seq<nat>, owner: map<nat, Owner>, o: Owner)
    ensures Owned(keys + ids, owner, o) == Owned(keys, owner, o) + Owned(ids, owner, o)
  {
    if ids == [] {
      assert keys + ids == keys;
    } else {
      assert (keys + ids)[..|keys + ids| - 1] == keys + ids[..|ids| - 1];
      OwnedAppend(keys, ids[..|ids| - 1], owner, o);
    }
  }

  lemma {:induction false} OwnedUniform(ids: seq<nat>, owner: map<nat, Owner>, p: Owner, o: Owner)
    requires forall b :: b in ids ==> b in owner && owner[b] == p
    ensures Owned(ids, owner, o) == if o == p then ids else []
  {
    if ids != [] {
      assert ids == ids[..|ids| - 1] + [ids[|ids| - 1]];
      OwnedUniform(ids[..|ids| - 1], owner, p, o);
    }
  }

  lemma {:induction false} OwnedWithout(keys: seq<nat>, owner: map<nat, Owner>, ids: seq<nat>, o: Owner)
    ensures Owned(Without(keys, ids), owner, o) == Without(Owned(keys, owner, o), ids)
  {
    if keys != [] {
      var init, last := keys[..|keys| - 1], keys[|keys| - 1];
      OwnedWithout(init, owner, ids, o);
      var w := Without(init, ids);
      assert (w + [last])[..|w + [last]| - 1] == w;
      var q := Owned(init, owner, o);
      assert (q + [last])[..|q + [last]| - 1] == q;
    }
  }

  /** Free list, owned blocks and nothing else: together exactly the blocks 0..total-1. */
  lemma {:induction false} BlocksPartitioned(a: Blocks)
    requires a.Valid()
    ensures forall b: nat :: b < a.total <==> b in a.free || b in a.owner
    ensures forall b: nat :: !(b in a.free && b in a.owner)
  {
    var s := a.free + a.keys;
    NoDupConcat(a.free, a.keys);
    AllBelow(s, a.total);
    forall b: nat ensures b < a.total <==> b in a.free || b in a.owner {
      assert b in s <==> b in a.free || b in a.keys;
    }
  }

  lemma {:induction false} PoppedFacts(a: Blocks, n: nat)
    requires NoDup(a.free) && n <= |a.free|
    ensures |a.Popped(n)| == n && NoDup(a.Popped(n))
    ensures forall b :: b in a.Popped(n) ==> b in a.free && b !in a.free[..|a.free| - n]
    ensures forall b :: b in a.free ==> b in a.Popped(n) || b in a.free[..|a.free| - n]
  {
    var ids := a.Popped(n);
    forall b | b in a.free && b !in a.free[..|a.free| - n] ensures b in ids {
      var k :| 0 <= k < |a.free| && a.free[k] == b;
      assert forall i :: 0 <= i < |a.free| - n ==> a.free[i] in a.free[..|a.free| - n];
      assert ids[|a.free| - 1 - k] == b;
    }
  }

  /** An allocation hands `n` previously free blocks to `o` and leaves every other owner's blocks alone. */
  lemma {:induction false} AllocateFacts(a: Blocks, o: Owner, n: nat)
    requires a.Valid() && n <= |a.free|
    ensures a.Allocate(o, n).Valid()
    ensures a.Allocate(o, n).OwnedBy(o) == a.OwnedBy(o) + a.Popped(n)
    ensures forall p :: p != o ==> a.Allocate(o, n).OwnedBy(p) == a.OwnedBy(p)
  {
    PoppedFacts(a, n);
    AllocateOwned(a, o, n);
    NoDupConcat(a.keys, a.Popped(n));
    var a', ids := a.Allocate(o, n), a.Popped(n);
    assert forall b :: b in a'.owner <==> b in a.owner || b in ids;
    assert forall b :: b in a'.free ==> b in a.free && b !in ids;
  }

  lemma {:induction false} AllocateOwned(a: Blocks, o: Owner, n: nat)
    requires a.Valid() && n <= |a.free|
    ensures forall p :: a.Allocate(o, n).OwnedBy(p) == a.OwnedBy(p) + if p == o then a.Popped(n) else []
  {
    PoppedFacts(a, n);
    var a', ids := a.Allocate(o, n), a.Popped(n);
    forall p ensures a'.OwnedBy(p) == a.OwnedBy(p) + if p == o then ids else [] {
      OwnedAppend(a.keys, ids, a'.owner, p);
      OwnedSame(a.keys, a.owner, a'.owner, p);
      OwnedUniform(ids, a'.owner, o, p);
    }
  }

  /** The checks of `free` pass exactly for duplicate-free lists of blocks owned by the caller. */
  lemma {:induction false} FirstBadOwnerMeaning(a: Blocks, ids: seq<nat>, o: Owner)
    ensures a.FirstBadOwner(ids, o).None? <==> forall b :: b in ids ==> b in a.owner && a.owner[b] == o
  {
    if ids != [] {
      assert ids == [ids[0]] + ids[1..];
      FirstBadOwnerMeaning(a, ids[1..], o);
    }
  }

  lemma {:induction false} FreeCheckMeaning(a: Blocks, ids: seq<nat>, o: Owner)
    ensures a.FreeCheck(ids, o).None? <==>
            NoDup(ids) && forall b :: b in ids ==> b in a.owner && a.owner[b] == o
  {
    FirstBadOwnerMeaning(a, ids, o);
  }

  /** Freeing blocks of one owner keeps the partition and every other owner's blocks. */
  lemma {:induction false} FreedFacts(a: Blocks, ids: seq<nat>, o: Owner)
    requires a.Valid() && a.FreeCheck(ids, o).None?
    ensures a.Freed(ids).Valid()
    ensures a.Freed(ids).OwnedBy(o) == Without(a.OwnedBy(o), ids)
    ensures forall p :: p != o ==> a.Freed(ids).OwnedBy(p) == a.OwnedBy(p)
  {
    FreeCheckMeaning(a, ids, o);
    var a' := a.Freed(ids);
    WithoutFacts(a.keys, ids);
    WithoutLength(a.keys, ids);
    NoDupConcat(a.free, ids);
    forall p ensures a'.OwnedBy(p) == Without(a.OwnedBy(p), ids) {
      OwnedSame(a'.keys, a.owner, a'.owner, p);
      OwnedWithout(a.keys, a.owner, ids, p);
    }
    forall p | p != o ensures a'.OwnedBy(p) == a.OwnedBy(p) {
      OwnedFacts(a.keys, a.owner, p);
      WithoutDisjoint(a.OwnedBy(p), ids);
    }
  }

  /** `free_for`: everything an owner holds goes back, and no check can fail. */
  lemma {:induction false} FreeAllFacts(a: Blocks, o: Owner)
    requires a.Valid()
    ensures a.FreeCheck(a.OwnedBy(o), o).None?
    ensures a.Freed(a.OwnedBy(o)).Valid()
    ensures a.Freed(a.OwnedBy(o)).OwnedBy(o) == []
    ensures forall p :: p != o ==> a.Freed(a.OwnedBy(o)).OwnedBy(p) == a.OwnedBy(p)
  {
    var ids := a.OwnedBy(o);
    OwnedFacts(a.keys, a.owner, o);
    FreeCheckMeaning(a, ids, o);
    FreedFacts(a, ids, o);
    WithoutFacts(ids, ids);
    NoMembers(Without(ids, ids));
  }

  /** Two owners never share a block. */
  lemma {:induction false} OwnersDisjoint(a: Blocks, o: Owner, p: Owner)
    requires o != p
    ensures forall b :: !(b in a.OwnedBy(o) && b in a.OwnedBy(p))
  {
    OwnedFacts(a.keys, a.owner, o);
    OwnedFacts(a.keys, a.owner, p);
  }

  /** `math.ceil(tokens / block_size)`. */
  function BlocksFor(size: Positive, tokens: nat): nat {
    (tokens + size - 1) / size
  }

  /** The least number of blocks whose slots can hold `tokens`. */
  lemma {:induction false} BlocksForIsLeast(size: Positive, tokens: nat, n: nat)
    ensures BlocksFor(size, tokens) <= n <==> tokens <= n * size
  {
    var q := BlocksFor(size, tokens);
    var r := (tokens + size - 1) % size;
    assert tokens + size - 1 == q * size + r;
    if q <= n {
      assert q * size <= n * size;
    } else {
      assert (n + 1) * size <= q * size;
      assert (n + 1) * size == n * size + size;
    }
  }

  lemma {:induction false} BlocksForMonotone(size: Positive, a: nat, b: nat)
    requires a <= b
    ensures BlocksFor(size, a) <= BlocksFor(size, b)
  {
    BlocksForIsLeast(size, b, BlocksFor(size, b));
    BlocksForIsLeast(size, a, BlocksFor(size, b));
  }

  lemma {:induction false} BlocksForExact(size: Positive, n: nat)
    ensures BlocksFor(size, n * size) == n
  {
    BlocksForIsLeast(size, n * size, n);
    if n > 0 {
      BlocksForIsLeast(size, n * size, n - 1);
      assert n * size == (n - 1) * size + size;
    }
  }

  class BlockAllocator {
    const total: nat
    const size: Positive
    var free: seq<nat>
    var keys: seq<nat>
    var owner: map<nat, Owner>

    ghost function State(): Blocks
      reads this
    {
      Blocks(total, free, keys, owner)
    }

    ghost predicate Valid()
      reads this
    {
      State().Valid()
    }

    constructor (numBlocks: nat, blockSize: Positive)
      requires numBlocks > 0
      ensures Valid() && total == numBlocks && size == blockSize
      ensures free == seq(numBlocks, i => i) && owner == map[] && keys == []
    {
      total, size := numBlocks, blockSize;
      free := seq(numBlocks, i => i);
      keys := [];
      owner := map[];
    }

    method BlocksNeeded(tokens: nat) returns (n: nat)
      requires Valid()
      ensures forall m: nat :: n <= m <==> tokens <= m * size
    {
      n := BlocksFor(size, tokens);
      forall m: nat ensures n <= m <==> tokens <= m * size {
        BlocksForIsLeast(size, tokens, m);
      }
    }

    method Allocate(o: Owner, n: nat) returns (ids: Option<seq<nat>>)
      requires Valid()
      modifies this
      ensures Valid()
      ensures ids.Some? <==> n <= |old(free)|
      ensures ids.Some? ==> ids.value == old(State()).Popped(n) && State() == old(State()).Allocate(o, n)
      ensures ids.None? ==> State() == old(State())
    {
      hide Blocks.Valid, NoDup, Blocks.OwnedBy;
      if n > |free| {
        return None;
      }
      var popped: seq<nat> := [];
      while |popped| < n
        invariant |popped| <= n
        invariant forall j :: 0 <= j < |popped| ==> popped[j] == old(free)[|old(free)| - 1 - j]
        invariant free == old(free)[..|old(free)| - |popped|]
        invariant keys == old(keys) && owner == old(owner)
        decreases n - |popped|
      {
        popped, free := popped + [free[|free| - 1]], free[..|free| - 1];
      }
      assert popped == old(State()).Popped(n);
      Record(popped, o);
      AllocateFacts(old(State()), o, n);
      ids := Some(popped);
    }

    /** The owner loop of `allocate`. */
    method Record(ids: seq<nat>, o: Owner)
      modifies this`keys, this`owner
      ensures keys == old(keys) + ids
      ensures owner == old(owner) + (map b | b in ids :: o)
    {
      var i := 0;
      while i < |ids|
        invariant 0 <= i <= |ids|
        invariant keys == old(keys) + ids[..i]
        invariant owner == old(owner) + (map b | b in ids[..i] :: o)
      {
        assert ids[..i + 1] == ids[..i] + [ids[i]];
        keys, owner := keys + [ids[i]], owner[ids[i] := o];
        i := i + 1;
      }
      assert ids[..|ids|] == ids;
    }

    /** Returns the error raised; any error leaves the allocator as it was. */
    method Free(ids: seq<nat>, o: Owner) returns (error: Option<FreeError>)
      requires Valid()
      modifies this
      ensures Valid()
      ensures error.None? <==> NoDup(ids) && forall b :: b in ids ==> b in old(owner) && old(owner)[b] == o
      ensures error == old(State()).FreeCheck(ids, o)
      ensures State() == if error.None? then old(State()).Freed(ids) else old(State())
    {
      FreeCheckMeaning(State(), ids, o);
      if exists i, j | 0 <= i < j < |ids| :: ids[i] == ids[j] {
        return Some(SameBlockTwice);
      }
      var i := 0;
      while i < |ids|
        invariant 0 <= i <= |ids|
        invariant State().FirstBadOwner(ids, o) == State().FirstBadOwner(ids[i..], o)
      {
        if ids[i] !in owner {
          return Some(AlreadyFree);
        }
        if owner[ids[i]] != o {
          return Some(ForeignOwner);
        }
        assert ids[i..][1..] == ids[i + 1..];
        i := i + 1;
      }
      Return(ids);
      FreedFacts(old(State()), ids, o);
      error := None;
    }

    /** The second loop of `free`. */
    method Return(ids: seq<nat>)
      modifies this`free, this`keys, this`owner
      ensures State() == old(State()).Freed(ids)
    {
      var i := 0;
      WithoutDisjoint(keys, []);
      while i < |ids|
        invariant 0 <= i <= |ids|
        invariant free == old(free) + ids[..i]
        invariant keys == Without(old(keys), ids[..i])
        invariant owner == old(owner) - (set b | b in ids[..i])
      {
        WithoutOneMore(old(keys), ids[..i], ids[i]);
        assert ids[..i + 1] == ids[..i] + [ids[i]];
        keys, owner, free := Without(keys, [ids[i]]), owner - {ids[i]}, free + [ids[i]];
        i := i + 1;
      }
      assert ids[..|ids|] == ids;
    }

    method FreeFor(o: Owner) returns (ids: seq<nat>)
      requires Valid()
      modifies this
      ensures Valid()
      ensures ids == old(State()).OwnedBy(o)
      ensures State() == old(State()).Freed(ids)
      ensures State().OwnedBy(o) == []
    {
      ids := [];
      var i := 0;
      while i < |keys|
        invariant 0 <= i <= |keys|
        invariant ids == Owned(keys[..i], owner, o)
      {
        assert keys[..i + 1][..i] == keys[..i];
        if owner[keys[i]] == o {
          ids := ids + [keys[i]];
        }
        i := i + 1;
      }
      assert keys[..|keys|] == keys;
      FreeAllFacts(State(), o);
      FreeCheckMeaning(State(), ids, o);
      var error := Free(ids, o);
      assert error.None?;
    }
  }
}
