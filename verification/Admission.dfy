/** The in-process tenant gate: concurrency slots and a rolling one-minute token budget. Times in milliseconds. */
module Admission {
  import opened Lists

  const WINDOW: int := 60_000

  type Tenant = string

  datatype Policy = Policy(maxConcurrent: nat, tokensPerMinute: nat)

  /** The 429 reasons; a token rejection carries its Retry-After seconds. */
  datatype Verdict = Granted | Concurrency | TokenRate(retryAfter: nat)

  datatype Reservation = Reservation(stamp: int, tokens: nat)

  /** What has become of a granted lease. */
  datatype Lease = Lease(stamp: int, tokens: nat, released: bool, rolledBack: bool) {
    function Reserved(): Reservation {
      Reservation(stamp, tokens)
    }
  }

  /** One tenant's counters in the in-process gate. */
  datatype Account = Account(active: int, history: seq<Reservation>)

  function Prune(h: seq<Reservation>, cutoff: int): seq<Reservation> {
    if h == [] || h[0].stamp > cutoff then h else Prune(h[1..], cutoff)
  }

  function TokensOf(h: seq<Reservation>): nat {
    if h == [] then 0 else TokensOf(h[..|h| - 1]) + h[|h| - 1].tokens
  }

  /** `max(1, int(61 - age))` in whole seconds; 60 with no history to wait for. */
  function RetryAfter(h: seq<Reservation>, now: int): nat {
    if h == [] then 60 else
    var left := 61_000 - (now - h[0].stamp);
    if left >= 1_000 then left / 1_000 else 1
  }

  function Acquire(p: Policy, a: Account, now: int, tokens: nat): (Verdict, Account) {
    var h := Prune(a.history, now - WINDOW);
    if a.active >= p.maxConcurrent then (Concurrency, a.(history := h))
    else if TokensOf(h) + tokens > p.tokensPerMinute then (TokenRate(RetryAfter(h, now)), a.(history := h))
    else (Granted, Account(a.active + 1, h + [Reservation(now, tokens)]))
  }

  function Release(a: Account, r: Reservation, rollback: bool): Account {
    Account(a.active - 1, if rollback then RemoveFirst(a.history, r) else a.history)
  }

  /** The reservations younger than the cutoff, in order. */
  function Younger(h: seq<Reservation>, cutoff: int): seq<Reservation> {
    if h == [] then [] else
    var n := |h| - 1;
    if h[n].stamp > cutoff then Younger(h[..n], cutoff) + [h[n]] else Younger(h[..n], cutoff)
  }

  // -- the ledger of granted leases -------------------------------------------------------------

  /** Reservations, in grant order, of leases not rolled back and younger than the cutoff. */
  function Standing(leases: seq<Lease>, cutoff: int): seq<Reservation> {
    if leases == [] then [] else
    var n := |leases| - 1;
    if !leases[n].rolledBack && leases[n].stamp > cutoff then Standing(leases[..n], cutoff) + [leases[n].Reserved()]
    else Standing(leases[..n], cutoff)
  }

  function Unreleased(leases: seq<Lease>): nat {
    if leases == [] then 0 else
    Unreleased(leases[..|leases| - 1]) + if leases[|leases| - 1].released then 0 else 1
  }

  function Granting(leases: seq<Lease>, verdict: Verdict, now: int, tokens: nat): seq<Lease> {
    if verdict.Granted? then leases + [Lease(now, tokens, false, false)] else leases
  }

  /** `TenantLease.release`: only the first call counts. */
  predicate Releases(leases: seq<Lease>, k: nat) {
    k < |leases| && !leases[k].released
  }

  function Releasing(leases: seq<Lease>, k: nat, rollback: bool): seq<Lease> {
    if Releases(leases, k) then leases[k := leases[k].(released := true, rolledBack := rollback)] else leases
  }

  ghost predicate Chronological(leases: seq<Lease>, last: int) {
    (forall i, j :: 0 <= i < j < |leases| ==> leases[i].stamp <= leases[j].stamp) &&
    (forall i :: 0 <= i < |leases| ==> leases[i].stamp <= last)
  }

  /** Only a released lease has been rolled back. */
  ghost predicate ReleasedFirst(leases: seq<Lease>) {
    forall i :: 0 <= i < |leases| && leases[i].rolledBack ==> leases[i].released
  }

  lemma {:induction false} StandingSnoc(leases: seq<Lease>, l: Lease, cutoff: int)
    ensures Standing(leases + [l], cutoff) ==
      Standing(leases, cutoff) + if !l.rolledBack && l.stamp > cutoff then [l.Reserved()] else []
  {
    assert (leases + [l])[..|leases|] == leases;
  }

  /** A later cutoff keeps the younger ones. */
  lemma {:induction false} StandingYounger(leases: seq<Lease>, cutoff: int, later: int)
    requires cutoff <= later
    ensures Standing(leases, later) == Younger(Standing(leases, cutoff), later)
    ensures TokensOf(Standing(leases, later)) <= TokensOf(Standing(leases, cutoff))
  {
    if leases != [] {
      var n := |leases| - 1;
      StandingYounger(leases[..n], cutoff, later);
      var h, r := Standing(leases[..n], cutoff), leases[n].Reserved();
      assert (h + [r])[..|h|] == h;
      var g := Standing(leases[..n], later);
      assert (g + [r])[..|g|] == g;
    }
  }

  lemma {:induction false} UnreleasedAfter(leases: seq<Lease>, k: nat, rollback: bool)
    requires Releases(leases, k)
    ensures Unreleased(Releasing(leases, k, rollback)) == Unreleased(leases) - 1
  {
    var n := |leases| - 1;
    var after := Releasing(leases, k, rollback);
    if k == n {
      assert after[..n] == leases[..n];
    } else {
      assert after[..n] == Releasing(leases[..n], k, rollback);
      UnreleasedAfter(leases[..n], k, rollback);
    }
  }

  function Skip(s: seq<Reservation>, i: nat): seq<Reservation>
    requires i < |s|
  {
    s[..i] + s[i + 1..]
  }

  lemma {:induction false} SkipSnoc(s: seq<Reservation>, i: nat, t: seq<Reservation>)
    requires i < |s|
    ensures Skip(s + t, i) == Skip(s, i) + t
    ensures (s + t)[i] == s[i]
  {
  }

  /** Rolling a standing lease back takes exactly its reservation out. */
  lemma {:induction false} StandingAfter(leases: seq<Lease>, k: nat, rollback: bool, cutoff: int) returns (i: nat)
    requires Releases(leases, k) && !leases[k].rolledBack
    ensures var s, after := Standing(leases, cutoff), Standing(Releasing(leases, k, rollback), cutoff);
      if rollback && leases[k].stamp > cutoff then i < |s| && s[i] == leases[k].Reserved() && after == Skip(s, i)
      else after == s
  {
    var n := |leases| - 1;
    var init, last := leases[..n], leases[n];
    assert leases == init + [last];
    StandingSnoc(init, last, cutoff);
    if k == n {
      var last' := last.(released := true, rolledBack := rollback);
      assert Releasing(leases, k, rollback) == init + [last'];
      StandingSnoc(init, last', cutoff);
      i := |Standing(init, cutoff)|;
    } else {
      assert Releasing(leases, k, rollback) == Releasing(init, k, rollback) + [last];
      StandingSnoc(Releasing(init, k, rollback), last, cutoff);
      i := StandingAfter(init, k, rollback, cutoff);
      if rollback && leases[k].stamp > cutoff {
        SkipSnoc(Standing(init, cutoff), i, if !last.rolledBack && last.stamp > cutoff then [last.Reserved()] else []);
      }
    }
  }

  lemma {:induction false} TakenOutCount(s: seq<Reservation>, i: nat)
    requires i < |s|
    ensures multiset(Skip(s, i)) == multiset(s) - multiset{s[i]}
  {
    assert s == s[..i] + [s[i]] + s[i + 1..];
  }

  lemma {:induction false} TokensMiddle(a: seq<Reservation>, x: Reservation, b: seq<Reservation>)
    ensures TokensOf(a + ([x] + b)) == TokensOf(a + b) + x.tokens
  {
    TokensConcat(a, [x] + b);
    TokensConcat([x], b);
    TokensConcat(a, b);
    assert [x][..0] == [] && TokensOf([x]) == x.tokens;
  }

  /** Taking one element out of a list. */
  lemma {:induction false} TakenOut(s: seq<Reservation>, i: nat)
    requires i < |s|
    ensures TokensOf(Skip(s, i)) + s[i].tokens == TokensOf(s)
  {
    TokensMiddle(s[..i], s[i], s[i + 1..]);
    Around(s, i);
  }

  lemma {:induction false} Around(s: seq<Reservation>, i: nat)
    requires i < |s|
    ensures s == s[..i] + ([s[i]] + s[i + 1..])
  {
  }

  lemma {:induction false} StandingLast(leases: seq<Lease>, l: Lease, cutoff: int)
    ensures var s, kept := Standing(leases, cutoff), !l.rolledBack && l.stamp > cutoff;
      && Standing(leases + [l], cutoff) == (if kept then s + [l.Reserved()] else s)
      && TokensOf(Standing(leases + [l], cutoff)) == TokensOf(s) + (if kept then l.tokens else 0)
  {
    StandingSnoc(leases, l, cutoff);
    var s := Standing(leases, cutoff);
    assert (s + [l.Reserved()])[..|s|] == s;
  }

  // -- the account follows the ledger -----------------------------------------------------------------

  ghost predicate InOrder(h: seq<Reservation>, last: int) {
    (forall i, j :: 0 <= i < j < |h| ==> h[i].stamp <= h[j].stamp) && (forall i :: 0 <= i < |h| ==> h[i].stamp <= last)
  }

  /** Pruning a history in time order keeps exactly the younger reservations. */
  lemma {:induction false} PruneIsYounger(h: seq<Reservation>, cutoff: int, last: int)
    requires InOrder(h, last)
    ensures Prune(h, cutoff) == Younger(h, cutoff) && InOrder(Prune(h, cutoff), last)
    decreases |h|
  {
    if h == [] {
    } else if h[0].stamp > cutoff {
      YoungerAll(h, cutoff);
    } else {
      PruneIsYounger(h[1..], cutoff, last);
      YoungerTail(h, cutoff);
    }
  }

  lemma {:induction false} YoungerAll(h: seq<Reservation>, cutoff: int)
    requires forall i :: 0 <= i < |h| ==> h[i].stamp > cutoff
    ensures Younger(h, cutoff) == h
  {
    if h != [] {
      YoungerAll(h[..|h| - 1], cutoff);
    }
  }

  lemma {:induction false} YoungerTail(h: seq<Reservation>, cutoff: int)
    requires h != [] && h[0].stamp <= cutoff
    ensures Younger(h, cutoff) == Younger(h[1..], cutoff)
  {
    var n := |h| - 1;
    if n > 0 {
      YoungerTail(h[..n], cutoff);
      assert h[..n][1..] == h[1..][..n - 1];
    }
  }

  /** How often a reservation occurs among the younger ones. */
  lemma {:induction false} YoungerCount(h: seq<Reservation>, cutoff: int, r: Reservation)
    ensures multiset(Younger(h, cutoff))[r] == if r.stamp > cutoff then multiset(h)[r] else 0
  {
    if h != [] {
      var n := |h| - 1;
      assert h == h[..n] + [h[n]];
      YoungerCount(h[..n], cutoff, r);
    }
  }

  lemma {:induction false} YoungerSame(a: seq<Reservation>, b: seq<Reservation>, cutoff: int)
    requires multiset(a) == multiset(b)
    ensures multiset(Younger(a, cutoff)) == multiset(Younger(b, cutoff))
  {
    forall r ensures multiset(Younger(a, cutoff))[r] == multiset(Younger(b, cutoff))[r] {
      YoungerCount(a, cutoff, r);
      YoungerCount(b, cutoff, r);
    }
  }

  lemma {:induction false} TokensConcat(a: seq<Reservation>, b: seq<Reservation>)
    ensures TokensOf(a + b) == TokensOf(a) + TokensOf(b)
  {
    if b == [] {
      assert a + b == a;
    } else {
      assert (a + b)[..|a + b| - 1] == a + b[..|b| - 1];
      TokensConcat(a, b[..|b| - 1]);
    }
  }

  /** The sum does not depend on the order. */
  lemma {:induction false} TokensSame(a: seq<Reservation>, b: seq<Reservation>)
    requires multiset(a) == multiset(b)
    ensures TokensOf(a) == TokensOf(b)
    decreases |a|
  {
    assert |a| == |multiset(a)| == |multiset(b)| == |b|;
    if a != [] {
      var n := |a| - 1;
      assert a == a[..n] + [a[n]];
      assert a[n] in multiset(b);
      var k :| 0 <= k < |b| && b[k] == a[n];
      TakenOut(b, k);
      TakenOutCount(b, k);
      TokensSame(a[..n], Skip(b, k));
    }
  }

  lemma {:induction false} RemoveFirstAt(h: seq<Reservation>, r: Reservation) returns (i: nat)
    requires r in h
    ensures i < |h| && h[i] == r && RemoveFirst(h, r) == Skip(h, i)
  {
    assert h == [h[0]] + h[1..];
    if h[0] == r {
      i := 0;
    } else {
      i := RemoveFirstAt(h[1..], r);
      i := i + 1;
    }
  }

  /** The account says what the ledger says: slots held, and the reservations standing since `cutoff`. */
  ghost predicate Follows(a: Account, leases: seq<Lease>, cutoff: int, last: int) {
    && Chronological(leases, last) && ReleasedFirst(leases) && cutoff <= last - WINDOW
    && a.active == Unreleased(leases)
    && InOrder(a.history, last) && multiset(a.history) == multiset(Standing(leases, cutoff))
  }

  lemma {:induction false} PruneFollows(a: Account, leases: seq<Lease>, cutoff: int, last: int, now: int)
    requires Follows(a, leases, cutoff, last) && last <= now
    ensures Follows(a.(history := Prune(a.history, now - WINDOW)), leases, now - WINDOW, now)
    ensures TokensOf(Prune(a.history, now - WINDOW)) == TokensOf(Standing(leases, now - WINDOW))
  {
    PruneIsYounger(a.history, now - WINDOW, last);
    YoungerSame(a.history, Standing(leases, cutoff), now - WINDOW);
    StandingYounger(leases, cutoff, now - WINDOW);
    TokensSame(Prune(a.history, now - WINDOW), Standing(leases, now - WINDOW));
  }

  lemma {:induction false} AcquireFollows(p: Policy, a: Account, leases: seq<Lease>, cutoff: int, last: int, now: int,
                                          tokens: nat)
    requires Follows(a, leases, cutoff, last) && last <= now
    ensures var (verdict, a') := Acquire(p, a, now, tokens);
      && Follows(a', Granting(leases, verdict, now, tokens), now - WINDOW, now)
      && (verdict.Concurrency? <==> Unreleased(leases) >= p.maxConcurrent)
      && (verdict.Granted? <==> Unreleased(leases) < p.maxConcurrent &&
                                TokensOf(Standing(leases, now - WINDOW)) + tokens <= p.tokensPerMinute)
  {
    hide Follows, Standing, TokensOf, Prune, Unreleased, RetryAfter;
    PruneFollows(a, leases, cutoff, last, now);
    ActiveFollows(a, leases, cutoff, last);
    GrantFollows(a.(history := Prune(a.history, now - WINDOW)), leases, now, tokens);
  }

  lemma {:induction false} ActiveFollows(a: Account, leases: seq<Lease>, cutoff: int, last: int)
    requires Follows(a, leases, cutoff, last)
    ensures a.active == Unreleased(leases)
  {
  }

  lemma {:induction false} GrantFollows(a: Account, leases: seq<Lease>, now: int, tokens: nat)
    requires Follows(a, leases, now - WINDOW, now)
    ensures Follows(Account(a.active + 1, a.history + [Reservation(now, tokens)]),
                    leases + [Lease(now, tokens, false, false)], now - WINDOW, now)
  {
    var l := Lease(now, tokens, false, false);
    StandingSnoc(leases, l, now - WINDOW);
    assert (leases + [l])[..|leases|] == leases;
  }

  lemma {:induction false} ReleaseFollows(a: Account, leases: seq<Lease>, cutoff: int, last: int, k: nat,
                                          rollback: bool)
    requires Follows(a, leases, cutoff, last) && Releases(leases, k)
    ensures Follows(Release(a, leases[k].Reserved(), rollback), Releasing(leases, k, rollback), cutoff, last)
  {
    UnreleasedAfter(leases, k, rollback);
    if rollback {
      var i := StandingAfter(leases, k, rollback, cutoff);
      RolledBackHistory(a.history, Standing(leases, cutoff), leases[k], cutoff, last, i);
      if leases[k].stamp <= cutoff {
        NotStanding(leases, cutoff, leases[k].Reserved());
      }
    } else {
      var i := StandingAfter(leases, k, rollback, cutoff);
    }
  }

  /** The account's history loses the same reservation as the ledger, or neither has it. */
  lemma {:induction false} RolledBackHistory(h: seq<Reservation>, s: seq<Reservation>, l: Lease, cutoff: int, last: int,
                                             i: nat)
    requires InOrder(h, last) && multiset(h) == multiset(s)
    requires l.stamp > cutoff ==> i < |s| && s[i] == l.Reserved()
    ensures InOrder(RemoveFirst(h, l.Reserved()), last)
    ensures l.stamp > cutoff ==> multiset(RemoveFirst(h, l.Reserved())) == multiset(Skip(s, i))
    ensures l.Reserved() !in s ==> RemoveFirst(h, l.Reserved()) == h
  {
    hide RemoveFirst;
    var r := l.Reserved();
    assert r in h <==> r in multiset(h);
    assert r in s <==> r in multiset(s);
    if r in h {
      var j := RemoveFirstAt(h, r);
      TakenOutCount(h, j);
    } else {
      RemoveFirstAbsent(h, r);
    }
    if l.stamp > cutoff {
      TakenOutCount(s, i);
    }
  }

  lemma {:induction false} NotStanding(leases: seq<Lease>, cutoff: int, r: Reservation)
    requires r.stamp <= cutoff
    ensures r !in Standing(leases, cutoff)
  {
    if leases != [] {
      NotStanding(leases[..|leases| - 1], cutoff, r);
    }
  }

  // -- the sliding window ------------------------------------------------------------------------------

  /** Tokens admitted with a stamp in (t - 60 s, t] and not rolled back. */
  function InWindow(leases: seq<Lease>, t: int): nat {
    if leases == [] then 0 else
    var l := leases[|leases| - 1];
    InWindow(leases[..|leases| - 1], t) + if !l.rolledBack && t - WINDOW < l.stamp <= t then l.tokens else 0
  }

  /** At each grant, the window then ending was within the quota, and has only shrunk since. */
  ghost predicate WithinQuota(p: Policy, leases: seq<Lease>) {
    forall k :: 0 < k <= |leases| ==>
      TokensOf(Standing(leases[..k], leases[k - 1].stamp - WINDOW)) <= p.tokensPerMinute
  }

  lemma {:induction false} GrantWithinQuota(p: Policy, leases: seq<Lease>, now: int, tokens: nat)
    requires WithinQuota(p, leases) && TokensOf(Standing(leases, now - WINDOW)) + tokens <= p.tokensPerMinute
    ensures WithinQuota(p, leases + [Lease(now, tokens, false, false)])
  {
    hide TokensOf;
    var l := Lease(now, tokens, false, false);
    var after := leases + [l];
    forall k | 0 < k <= |after|
      ensures TokensOf(Standing(after[..k], after[k - 1].stamp - WINDOW)) <= p.tokensPerMinute {
      if k <= |leases| {
        assert after[..k] == leases[..k];
      } else {
        assert after[..k] == leases + [l];
        StandingLast(leases, l, now - WINDOW);
      }
    }
  }

  lemma {:induction false} StandingShrinks(leases: seq<Lease>, k: nat, rollback: bool, cutoff: int)
    requires Releases(leases, k) && !leases[k].rolledBack
    ensures TokensOf(Standing(Releasing(leases, k, rollback), cutoff)) <= TokensOf(Standing(leases, cutoff))
  {
    var i := StandingAfter(leases, k, rollback, cutoff);
    if rollback && leases[k].stamp > cutoff {
      TakenOut(Standing(leases, cutoff), i);
    }
  }

  lemma {:induction false} ReleaseWithinQuota(p: Policy, leases: seq<Lease>, k: nat, rollback: bool)
    requires WithinQuota(p, leases) && Releases(leases, k) && ReleasedFirst(leases)
    ensures WithinQuota(p, Releasing(leases, k, rollback))
  {
    forall j | 0 < j <= |leases|
      ensures var after := Releasing(leases, k, rollback);
        TokensOf(Standing(after[..j], after[j - 1].stamp - WINDOW)) <= p.tokensPerMinute {
      ReleaseAtGrant(leases, k, rollback, j);
    }
  }

  lemma {:induction false} ReleaseAtGrant(leases: seq<Lease>, k: nat, rollback: bool, j: nat)
    requires Releases(leases, k) && !leases[k].rolledBack && 0 < j <= |leases|
    ensures var after := Releasing(leases, k, rollback);
      && after[j - 1].stamp == leases[j - 1].stamp
      && TokensOf(Standing(after[..j], after[j - 1].stamp - WINDOW)) <=
           TokensOf(Standing(leases[..j], leases[j - 1].stamp - WINDOW))
  {
    var after := Releasing(leases, k, rollback);
    if k < j {
      assert after[..j] == Releasing(leases[..j], k, rollback);
      StandingShrinks(leases[..j], k, rollback, leases[j - 1].stamp - WINDOW);
    } else {
      assert after[..j] == leases[..j];
    }
  }

  /** The window ending at any instant is within the quota. */
  lemma {:induction false} WindowWithinQuota(p: Policy, leases: seq<Lease>, last: int, t: int)
    requires WithinQuota(p, leases) && Chronological(leases, last)
    ensures InWindow(leases, t) <= p.tokensPerMinute
  {
    hide TokensOf, Standing, WithinQuota;
    if leases != [] {
      var n := |leases| - 1;
      if leases[n].stamp > t {
        QuotaPrefix(p, leases);
        WindowWithinQuota(p, leases[..n], last, t);
      } else {
        WindowAtGrant(leases, leases[n].stamp, t);
        QuotaAtLast(p, leases);
      }
    }
  }

  lemma {:induction false} QuotaAtLast(p: Policy, leases: seq<Lease>)
    requires WithinQuota(p, leases) && leases != []
    ensures TokensOf(Standing(leases, leases[|leases| - 1].stamp - WINDOW)) <= p.tokensPerMinute
  {
    assert leases[..|leases|] == leases;
  }

  lemma {:induction false} QuotaPrefix(p: Policy, leases: seq<Lease>)
    requires WithinQuota(p, leases) && leases != []
    ensures WithinQuota(p, leases[..|leases| - 1])
  {
    var init := leases[..|leases| - 1];
    assert forall k :: 0 < k <= |init| ==> init[..k] == leases[..k];
  }

  lemma {:induction false} WindowAtGrant(leases: seq<Lease>, stamp: int, t: int)
    requires Chronological(leases, stamp) && stamp <= t
    ensures InWindow(leases, t) <= TokensOf(Standing(leases, stamp - WINDOW))
  {
    WindowIsStanding(leases, stamp, t);
    StandingYounger(leases, stamp - WINDOW, t - WINDOW);
  }

  lemma {:induction false} WindowIsStanding(leases: seq<Lease>, last: int, t: int)
    requires Chronological(leases, last) && last <= t
    ensures InWindow(leases, t) == TokensOf(Standing(leases, t - WINDOW))
  {
    if leases != [] {
      var n := |leases| - 1;
      WindowIsStanding(leases[..n], last, t);
      StandingLast(leases[..n], leases[n], t - WINDOW);
      assert leases == leases[..n] + [leases[n]];
    }
  }

  // -- retry-after ------------------------------------------------------------------------------------------

  /**
   * After a token rejection with something in the window, waiting the advertised seconds is enough for the
   * oldest reservation to leave it, and a second less would not do unless it leaves at that very instant.
   */
  lemma {:induction false} RetryAfterIsEnough(p: Policy, a: Account, now: int, tokens: nat, last: int, later: int)
    requires InOrder(a.history, last) && last <= now && Acquire(p, a, now, tokens).0.TokenRate?
    requires Prune(a.history, now - WINDOW) != []
    ensures var retry, oldest := Acquire(p, a, now, tokens).0.retryAfter, Prune(a.history, now - WINDOW)[0];
      && 1 <= retry <= 61 && oldest in a.history
      && (later >= now + 1_000 * retry ==> oldest !in Prune(a.history, later - WINDOW))
      && (now <= later < now + 1_000 * (retry - 1) ==> oldest in Prune(a.history, later - WINDOW))
  {
    PruneIsYounger(a.history, now - WINDOW, last);
    PruneIsYounger(a.history, later - WINDOW, last);
    var oldest := Prune(a.history, now - WINDOW)[0];
    assert oldest in Prune(a.history, now - WINDOW);
    YoungerMembers(a.history, now - WINDOW, oldest);
    YoungerMembers(a.history, later - WINDOW, oldest);
    assert oldest in a.history;
  }

  /** The same of the ledger: when the first standing reservation goes, and that none goes a second before. */
  lemma {:induction false} RetryExactly(p: Policy, a: Account, leases: seq<Lease>, cutoff: int, now: int, tokens: nat,
                                        retry: nat)
    requires Follows(a, leases, cutoff, now) && Acquire(p, a, now, tokens).0 == TokenRate(retry)
    ensures var standing := Standing(leases, now - WINDOW);
      && (standing == [] ==> 1_000 * retry == WINDOW)
      && (standing != [] ==> retry >= 1 && |Standing(leases, now + 1_000 * retry - 1 - WINDOW)| < |standing|)
      && (standing != [] && retry > 1 ==> Standing(leases, now + 1_000 * (retry - 1) - 1 - WINDOW) == standing)
  {
    hide Follows, Standing, Younger, Prune, TokensOf, RetryAfter, Unreleased;
    PruneFollows(a, leases, cutoff, now, now);
    var standing, h := Standing(leases, now - WINDOW), Prune(a.history, now - WINDOW);
    FollowingHistory(a.(history := h), leases, now - WINDOW, now);
    FollowingHistory(a, leases, cutoff, now);
    PrunedYounger(a.history, now - WINDOW, now);
    RetryAfterBounds(h, now);
    if standing != [] {
      OldestGoes(leases, h, now, now + 1_000 * retry - 1 - WINDOW);
      if retry > 1 {
        NobodyGoes(leases, h, now, now + 1_000 * (retry - 1) - 1 - WINDOW);
      }
    }
  }

  lemma {:induction false} FollowingHistory(a: Account, leases: seq<Lease>, cutoff: int, last: int)
    requires Follows(a, leases, cutoff, last)
    ensures InOrder(a.history, last) && multiset(a.history) == multiset(Standing(leases, cutoff))
    ensures |a.history| == |Standing(leases, cutoff)|
  {
    assert |a.history| == |multiset(a.history)|;
  }

  lemma {:induction false} PrunedYounger(h: seq<Reservation>, cutoff: int, last: int)
    requires InOrder(h, last)
    ensures Prune(h, cutoff) != [] ==> cutoff < Prune(h, cutoff)[0].stamp <= last
  {
    if h != [] && h[0].stamp <= cutoff {
      PrunedYounger(h[1..], cutoff, last);
    }
  }

  lemma {:induction false} RetryAfterBounds(h: seq<Reservation>, now: int)
    requires h != [] ==> now - WINDOW < h[0].stamp <= now
    ensures h == [] ==> 1_000 * RetryAfter(h, now) == WINDOW
    ensures h != [] ==> RetryAfter(h, now) >= 1 && h[0].stamp <= now + 1_000 * RetryAfter(h, now) - 1 - WINDOW
    ensures h != [] && RetryAfter(h, now) > 1 ==> h[0].stamp > now + 1_000 * (RetryAfter(h, now) - 1) - 1 - WINDOW
  {
  }

  lemma {:induction false} OldestGoes(leases: seq<Lease>, h: seq<Reservation>, now: int, cutoff: int)
    requires multiset(h) == multiset(Standing(leases, now - WINDOW)) && h != []
    requires now - WINDOW < h[0].stamp <= cutoff
    ensures |Standing(leases, cutoff)| < |Standing(leases, now - WINDOW)|
  {
    assert h[0] in multiset(h);
    StandingYounger(leases, now - WINDOW, cutoff);
    YoungerLoses(Standing(leases, now - WINDOW), cutoff, h[0]);
  }

  lemma {:induction false} NobodyGoes(leases: seq<Lease>, h: seq<Reservation>, now: int, cutoff: int)
    requires multiset(h) == multiset(Standing(leases, now - WINDOW)) && h != [] && InOrder(h, now)
    requires now - WINDOW <= cutoff < h[0].stamp
    ensures Standing(leases, cutoff) == Standing(leases, now - WINDOW)
  {
    var standing := Standing(leases, now - WINDOW);
    StandingYounger(leases, now - WINDOW, cutoff);
    forall i | 0 <= i < |standing| ensures standing[i].stamp > cutoff {
      assert standing[i] in multiset(standing);
      assert standing[i] in multiset(h);
    }
    YoungerAll(standing, cutoff);
  }

  lemma {:induction false} YoungerLoses(h: seq<Reservation>, cutoff: int, r: Reservation)
    ensures |Younger(h, cutoff)| <= |h|
    ensures r in h && r.stamp <= cutoff ==> |Younger(h, cutoff)| < |h|
  {
    if h != [] {
      var n := |h| - 1;
      assert h == h[..n] + [h[n]];
      YoungerLoses(h[..n], cutoff, r);
    }
  }

  lemma {:induction false} YoungerMembers(h: seq<Reservation>, cutoff: int, r: Reservation)
    ensures r in Younger(h, cutoff) <==> r in h && r.stamp > cutoff
  {
    if h != [] {
      var n := |h| - 1;
      assert h == h[..n] + [h[n]];
      YoungerMembers(h[..n], cutoff, r);
    }
  }
}
