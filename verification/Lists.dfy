/** Option, plus the list operations the engine's Python lists, deques and dict orders rely on. */
module Lists {

  datatype Option<+T> = None | Some(value: T)

  type Positive = n: int | n > 0 witness 1

  /** No element occurs twice. */
  ghost predicate NoDup<T>(s: seq<T>) {
    forall i, j :: 0 <= i < j < |s| ==> s[i] != s[j]
  }

  lemma {:induction false} NoDupCons<T>(x: T, s: seq<T>)
    requires NoDup(s) && x !in s
    ensures NoDup([x] + s)
  {
  }

  lemma {:induction false} NoDupConcat<T>(a: seq<T>, b: seq<T>)
    ensures NoDup(a + b) <==> NoDup(a) && NoDup(b) && forall x :: !(x in a && x in b)
  {
    var s := a + b;
    assert forall i :: 0 <= i < |a| ==> s[i] == a[i];
    assert forall i {:trigger b[i]} :: 0 <= i < |b| ==> s[|a| + i] == b[i];
    if NoDup(s) {
      forall i, j | 0 <= i < j < |b| ensures b[i] != b[j] {
        assert s[|a| + i] != s[|a| + j];
      }
      forall x | x in a ensures x !in b {
        var i :| 0 <= i < |a| && a[i] == x;
        assert forall j {:trigger b[j]} :: 0 <= j < |b| ==> s[i] != s[|a| + j];
      }
    } else if NoDup(a) && NoDup(b) {
      var i, j :| 0 <= i < j < |s| && s[i] == s[j];
      assert i < |a| <= j;
      assert s[i] in a && s[j] in b;
    }
  }

  lemma {:induction false} HasMember<T>(s: seq<T>)
    requires s != []
    ensures exists x :: x in s
  {
    assert s[0] in s;
  }

  lemma {:induction false} NoMembers<T>(s: seq<T>)
    requires forall x :: x !in s
    ensures s == []
  {
    if s != [] {
      HasMember(s);
      assert false;
    }
  }

  /** `list.remove(x)`: drops the first occurrence, if there is one. */
  function RemoveFirst<T(==)>(s: seq<T>, x: T): seq<T> {
    if s == [] then [] else if s[0] == x then s[1..] else [s[0]] + RemoveFirst(s[1..], x)
  }

  lemma {:induction false} RemoveFirstFacts<T>(s: seq<T>, x: T)
    requires NoDup(s)
    ensures NoDup(RemoveFirst(s, x))
    ensures forall y :: y in RemoveFirst(s, x) <==> y in s && y != x
    ensures |RemoveFirst(s, x)| == |s| - if x in s then 1 else 0
  {
    if s == [] {
    } else if s[0] == x {
      assert s == [s[0]] + s[1..];
      assert forall y :: y in s[1..] ==> y in s && y != x;
    } else {
      RemoveFirstFacts(s[1..], x);
      assert s == [s[0]] + s[1..];
      NoDupCons(s[0], RemoveFirst(s[1..], x));
    }
  }

  lemma {:induction false} RemoveFirstAbsent<T>(s: seq<T>, x: T)
    requires x !in s
    ensures RemoveFirst(s, x) == s
  {
    if s != [] {
      assert s == [s[0]] + s[1..];
      RemoveFirstAbsent(s[1..], x);
    }
  }

  /** The elements of `s` that do not occur in `xs`, in order. */
  function Without<T(==)>(s: seq<T>, xs: seq<T>): seq<T> {
    if s == [] then [] else
    var init, last := s[..|s| - 1], s[|s| - 1];
    if last in xs then Without(init, xs) else Without(init, xs) + [last]
  }

  lemma {:induction false} WithoutFacts<T>(s: seq<T>, xs: seq<T>)
    ensures forall y :: y in Without(s, xs) <==> y in s && y !in xs
    ensures NoDup(s) ==> NoDup(Without(s, xs))
  {
    if s != [] {
      var init, last := s[..|s| - 1], s[|s| - 1];
      assert s == init + [last];
      WithoutFacts(init, xs);
      if NoDup(s) {
        assert last !in init;
      }
    }
  }

  lemma {:induction false} WithoutDisjoint<T>(s: seq<T>, xs: seq<T>)
    requires forall y :: y in s ==> y !in xs
    ensures Without(s, xs) == s
  {
    if s != [] {
      assert s == s[..|s| - 1] + [s[|s| - 1]];
      WithoutDisjoint(s[..|s| - 1], xs);
    }
  }

  lemma {:induction false} WithoutOneMore<T>(s: seq<T>, xs: seq<T>, x: T)
    ensures Without(s, xs + [x]) == Without(Without(s, xs), [x])
  {
    if s != [] {
      var init, last := s[..|s| - 1], s[|s| - 1];
      WithoutOneMore(init, xs, x);
      var w := Without(init, xs);
      assert (w + [last])[..|w + [last]| - 1] == w;
    }
  }

  lemma {:induction false} WithoutTwice<T>(s: seq<T>, a: seq<T>, b: seq<T>)
    ensures Without(Without(s, a), b) == Without(s, a + b)
  {
    if s != [] {
      var init, last := s[..|s| - 1], s[|s| - 1];
      WithoutTwice(init, a, b);
      var w := Without(init, a);
      assert (w + [last])[..|w + [last]| - 1] == w;
    }
  }

  lemma {:induction false} WithoutConcat<T>(a: seq<T>, b: seq<T>, xs: seq<T>)
    ensures Without(a + b, xs) == Without(a, xs) + Without(b, xs)
  {
    if b == [] {
      assert a + b == a;
    } else {
      assert (a + b)[..|a + b| - 1] == a + b[..|b| - 1];
      WithoutConcat(a, b[..|b| - 1], xs);
    }
  }

  /** Only which elements are listed matters. */
  lemma {:induction false} WithoutSame<T>(s: seq<T>, a: seq<T>, b: seq<T>)
    requires forall y :: y in s ==> (y in a <==> y in b)
    ensures Without(s, a) == Without(s, b)
  {
    if s != [] {
      assert s == s[..|s| - 1] + [s[|s| - 1]];
      WithoutSame(s[..|s| - 1], a, b);
    }
  }

  lemma {:induction false} RemoveFirstIsWithout<T>(s: seq<T>, x: T)
    requires NoDup(s)
    ensures RemoveFirst(s, x) == Without(s, [x])
  {
    if s != [] {
      assert s == [s[0]] + s[1..];
      NoDupConcat([s[0]], s[1..]);
      WithoutConcat([s[0]], s[1..], [x]);
      assert [s[0]][..0] == [];
      assert Without([s[0]], [x]) == if s[0] == x then [] else [s[0]];
      if s[0] == x {
        WithoutDisjoint(s[1..], [x]);
      } else {
        RemoveFirstIsWithout(s[1..], x);
      }
    }
  }

  lemma {:induction false} WithoutSingle<T>(s: seq<T>, x: T)
    requires NoDup(s) && x in s
    ensures |Without(s, [x])| == |s| - 1
  {
    var init, last := s[..|s| - 1], s[|s| - 1];
    assert s == init + [last];
    if last == x {
      WithoutDisjoint(init, [x]);
    } else {
      WithoutSingle(init, x);
    }
  }

  /** Removing a duplicate-free sub-list shortens a duplicate-free list by its length. */
  lemma {:induction false} WithoutLength<T>(s: seq<T>, xs: seq<T>)
    requires NoDup(s) && NoDup(xs) && forall y :: y in xs ==> y in s
    ensures |Without(s, xs)| == |s| - |xs|
  {
    if xs == [] {
      WithoutDisjoint(s, xs);
    } else {
      var init, last := xs[..|xs| - 1], xs[|xs| - 1];
      assert xs == init + [last];
      WithoutLength(s, init);
      WithoutFacts(s, init);
      WithoutSingle(Without(s, init), last);
      WithoutOneMore(s, init, last);
    }
  }

  ghost function Elements<T>(s: seq<T>): set<T> {
    set y | y in s
  }

  /** A duplicate-free list has as many elements as its set. */
  lemma {:induction false} SetOfNoDup<T>(s: seq<T>)
    requires NoDup(s)
    ensures |Elements(s)| == |s|
  {
    if s != [] {
      var init, last := s[..|s| - 1], s[|s| - 1];
      assert s == init + [last];
      SetOfNoDup(init);
      assert Elements(s) == Elements(init) + {last};
    } else {
      assert Elements(s) == {};
    }
  }

  lemma {:induction false} SameMembersSameLength<T>(a: seq<T>, b: seq<T>)
    requires NoDup(a) && NoDup(b) && forall x :: x in a <==> x in b
    ensures |a| == |b|
  {
    SetOfNoDup(a);
    SetOfNoDup(b);
    assert Elements(a) == Elements(b);
  }

  ghost function Below(n: nat): set<nat> {
    if n == 0 then {} else Below(n - 1) + {n - 1}
  }

  lemma {:induction false} BelowFacts(n: nat)
    ensures |Below(n)| == n && forall x: nat :: x in Below(n) <==> x < n
  {
    if n > 0 {
      BelowFacts(n - 1);
    }
  }

  /** Pigeonhole: `n` distinct numbers below `n` are all the numbers below `n`. */
  lemma {:induction false} AllBelow(s: seq<nat>, n: nat)
    requires NoDup(s) && |s| == n && forall x :: x in s ==> x < n
    ensures forall x: nat :: x < n ==> x in s
  {
    SetOfNoDup(s);
    BelowFacts(n);
    var elems := Elements(s);
    assert elems <= Below(n);
    if elems != Below(n) {
      SubsetSize(elems, Below(n));
    }
    forall x: nat | x < n ensures x in s {
      assert x in elems;
    }
  }

  lemma {:induction false} SubsetSize<T>(a: set<T>, b: set<T>)
    requires a < b
    ensures |a| < |b|
  {
    assert b == a + (b - a);
    assert b - a != {};
  }

  /** Where `x` first occurs. */
  function IndexOf<T(==)>(s: seq<T>, x: T): (r: Option<nat>)
    ensures r.Some? <==> x in s
    ensures r.Some? ==> r.value < |s| && s[r.value] == x
  {
    if s == [] then None
    else if s[0] == x then Some(0)
    else
      assert s == [s[0]] + s[1..];
      match IndexOf(s[1..], x)
      case None => None
      case Some(k) => Some(k + 1)
  }

  function Sum(s: seq<nat>): nat {
    if s == [] then 0 else Sum(s[..|s| - 1]) + s[|s| - 1]
  }

  lemma {:induction false} SumAppend(a: seq<nat>, b: seq<nat>)
    ensures Sum(a + b) == Sum(a) + Sum(b)
  {
    if b == [] {
      assert a + b == a;
    } else {
      assert (a + b)[..|a + b| - 1] == a + b[..|b| - 1];
      SumAppend(a, b[..|b| - 1]);
    }
  }

  /** Sum of the values at the given keys; the order does not matter. */
  ghost function SumOver(counts: map<nat, nat>, ids: set<nat>): nat
    requires ids <= counts.Keys
  {
    if ids == {} then 0 else
    var x :| x in ids;
    counts[x] + SumOver(counts, ids - {x})
  }

  lemma {:induction false} SumRemove(counts: map<nat, nat>, ids: set<nat>, y: nat)
    requires ids <= counts.Keys && y in ids
    ensures SumOver(counts, ids) == counts[y] + SumOver(counts, ids - {y})
    decreases |ids|
  {
    var x :| x in ids && SumOver(counts, ids) == counts[x] + SumOver(counts, ids - {x});
    if x != y {
      SumRemove(counts, ids - {x}, y);
      SumRemove(counts, ids - {y}, x);
      assert ids - {x} - {y} == ids - {y} - {x};
    }
  }

  lemma {:induction false} SumSame(a: map<nat, nat>, b: map<nat, nat>, ids: set<nat>)
    requires ids <= a.Keys && ids <= b.Keys && forall l :: l in ids ==> a[l] == b[l]
    ensures SumOver(a, ids) == SumOver(b, ids)
    decreases |ids|
  {
    if ids != {} {
      var x :| x in ids;
      SumRemove(a, ids, x);
      SumRemove(b, ids, x);
      SumSame(a, b, ids - {x});
    }
  }

  /** A loop over a dict's values: whatever order they come in, the sum is the same. */
  method SumValues(counts: map<nat, nat>) returns (sum: nat)
    ensures sum == SumOver(counts, counts.Keys)
  {
    var left := counts.Keys;
    sum := 0;
    while left != {}
      invariant left <= counts.Keys
      invariant sum + SumOver(counts, left) == SumOver(counts, counts.Keys)
      decreases |left|
    {
      var l :| l in left;
      SumRemove(counts, left, l);
      sum, left := sum + counts[l], left - {l};
    }
  }
}
