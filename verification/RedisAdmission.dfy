/** The Redis gate: three keys per tenant, updated by atomic scripts. Lease ids are numbered in grant order. */
module RedisAdmission {
  import opened Lists
  import opened Admission

  /** The active and token sorted sets (member to score), the counts hash, and when each key expires. */
  datatype Keys = Keys(active: map<nat, int>, tokens: map<nat, int>, counts: map<nat, nat>,
                       activeUntil: int, tokensUntil: int, countsUntil: int)

  const SLACK: int := 60_000
  const TOKENS_TTL: int := 120_000

  /** An expired key reads as absent. */
  function Visible(k: Keys, now: int): Keys {
    k.(active := if k.activeUntil <= now then map[] else k.active,
       tokens := if k.tokensUntil <= now then map[] else k.tokens,
       counts := if k.countsUntil <= now then map[] else k.counts)
  }

  function Above(m: map<nat, int>, cutoff: int): map<nat, int> {
    map l | l in m && m[l] > cutoff :: m[l]
  }

  /** The trimming at the head of the scripts. */
  function Trim(k: Keys, now: int): Keys {
    var expired := set l | l in k.tokens && k.tokens[l] <= now - WINDOW;
    k.(counts := k.counts - expired, tokens := Above(k.tokens, now - WINDOW), active := Above(k.active, now))
  }

  ghost function RedisAcquire(p: Policy, leaseMs: nat, k0: Keys, now: int, tokens: nat, id: nat): (Verdict, Keys) {
    var k := Trim(Visible(k0, now), now);
    if |k.active| >= p.maxConcurrent then (Concurrency, k)
    else if SumOver(k.counts, k.counts.Keys) + tokens > p.tokensPerMinute then (TokenRate(60), k)
    else (Granted, Keys(k.active[id := now + leaseMs], k.tokens[id := now], k.counts[id := tokens],
                        now + leaseMs + SLACK, now + TOKENS_TTL, now + TOKENS_TTL))
  }

  function RedisRelease(k0: Keys, now: int, id: nat, rollback: bool): Keys {
    var k := Visible(k0, now);
    k.(active := k.active - {id},
       tokens := if rollback then k.tokens - {id} else k.tokens,
       counts := if rollback then k.counts - {id} else k.counts)
  }

  // -- what the keys track ----------------------------------------------------------------------

  predicate Stands(l: Lease, cutoff: int) {
    !l.rolledBack && l.stamp > cutoff
  }

  /**
   * The token keys list the same leases; every standing lease of the last minute is among them, with its
   * stamp and tokens; and both keys outlive all their entries' windows.
   */
  ghost predicate TracksTokens(k: Keys, leases: seq<Lease>, last: int) {
    && k.tokens.Keys == k.counts.Keys && k.tokensUntil == k.countsUntil
    && (forall l :: l in k.tokens ==> l < |leases| && TokenEntry(k, leases[l], l))
    && (forall l: nat :: l < |leases| && Stands(leases[l], last - WINDOW) ==> l in k.tokens)
  }

  ghost predicate TokenEntry(k: Keys, lease: Lease, l: nat) {
    && l in k.tokens && l in k.counts && !lease.rolledBack
    && k.tokens[l] == lease.stamp && k.counts[l] == lease.tokens && lease.stamp + TOKENS_TTL <= k.tokensUntil
  }

  /** Every unreleased lease not outlived is in the active set, which outlives all its entries. */
  ghost predicate TracksActive(k: Keys, leases: seq<Lease>, leaseMs: nat, last: int) {
    && (forall l :: l in k.active ==> l < |leases| && ActiveEntry(k, leases[l], leaseMs, l))
    && (forall l: nat :: l < |leases| && !leases[l].released && last < leases[l].stamp + leaseMs ==> l in k.active)
  }

  ghost predicate ActiveEntry(k: Keys, lease: Lease, leaseMs: nat, l: nat) {
    && l in k.active && !lease.released && k.active[l] == lease.stamp + leaseMs
    && lease.stamp + leaseMs + SLACK <= k.activeUntil
  }

  /** The key TTLs never drop an entry of the last minute, nor a lease still running. */
  lemma {:induction false} VisibleTracks(k: Keys, leases: seq<Lease>, leaseMs: nat, last: int, now: int)
    requires last <= now
    ensures TracksTokens(k, leases, last) ==> TracksTokens(Visible(k, now), leases, now)
    ensures TracksActive(k, leases, leaseMs, last) ==> TracksActive(Visible(k, now), leases, leaseMs, now)
  {
    var v := Visible(k, now);
    if TracksTokens(k, leases, last) {
      forall l: nat | l < |leases| && Stands(leases[l], now - WINDOW) ensures l in v.tokens {
        assert TokenEntry(k, leases[l], l);
      }
      forall l | l in v.tokens ensures l < |leases| && TokenEntry(v, leases[l], l) {
        assert TokenEntry(k, leases[l], l);
      }
    }
    if TracksActive(k, leases, leaseMs, last) {
      forall l: nat | l < |leases| && !leases[l].released && now < leases[l].stamp + leaseMs ensures l in v.active {
        assert ActiveEntry(k, leases[l], leaseMs, l);
      }
      forall l | l in v.active ensures l < |leases| && ActiveEntry(v, leases[l], leaseMs, l) {
        assert ActiveEntry(k, leases[l], leaseMs, l);
      }
    }
  }

  lemma {:induction false} TrimTokens(k: Keys, leases: seq<Lease>, now: int)
    requires TracksTokens(k, leases, now)
    ensures TracksTokens(Trim(k, now), leases, now)
    ensures forall l: nat :: l in Trim(k, now).tokens <==> l < |leases| && Stands(leases[l], now - WINDOW)
  {
    var t := Trim(k, now);
    assert t.tokens.Keys == t.counts.Keys;
    forall l | l in t.tokens ensures l < |leases| && TokenEntry(t, leases[l], l) {
      assert TokenEntry(k, leases[l], l);
    }
    forall l: nat | l < |leases| && Stands(leases[l], now - WINDOW) ensures l in t.tokens {
      assert TokenEntry(k, leases[l], l);
    }
  }

  lemma {:induction false} TrimActive(k: Keys, leases: seq<Lease>, leaseMs: nat, now: int)
    requires TracksActive(k, leases, leaseMs, now)
    ensures TracksActive(Trim(k, now), leases, leaseMs, now)
    ensures forall l: nat :: l in Trim(k, now).active <==>
      l < |leases| && !leases[l].released && leases[l].stamp > now - leaseMs
  {
    var t := Trim(k, now);
    forall l | l in t.active ensures l < |leases| && ActiveEntry(t, leases[l], leaseMs, l) {
      assert ActiveEntry(k, leases[l], leaseMs, l);
    }
    forall l: nat | l < |leases| && !leases[l].released && leases[l].stamp > now - leaseMs ensures l in t.active {
      assert ActiveEntry(k, leases[l], leaseMs, l);
    }
  }

  /** The script's sum is the sum of the standing reservations. */
  lemma {:induction false} SumIsStanding(counts: map<nat, nat>, leases: seq<Lease>, cutoff: int)
    requires forall l: nat :: l in counts <==> l < |leases| && Stands(leases[l], cutoff)
    requires forall l :: l in counts ==> counts[l] == leases[l].tokens
    ensures SumOver(counts, counts.Keys) == TokensOf(Standing(leases, cutoff))
    decreases |leases|
  {
    if leases == [] {
      assert counts.Keys == {};
    } else {
      var n := |leases| - 1;
      assert leases == leases[..n] + [leases[n]];
      StandingLast(leases[..n], leases[n], cutoff);
      var rest := counts - {n};
      SumIsStanding(rest, leases[..n], cutoff);
      if Stands(leases[n], cutoff) {
        SumRemove(counts, counts.Keys, n);
        assert counts.Keys - {n} == rest.Keys;
        SumSame(counts, rest, rest.Keys);
      } else {
        assert rest == counts;
      }
    }
  }

  /** Unreleased leases granted after `since`. */
  function Running(leases: seq<Lease>, since: int): nat {
    if leases == [] then 0 else
    var l := leases[|leases| - 1];
    Running(leases[..|leases| - 1], since) + if !l.released && l.stamp > since then 1 else 0
  }

  lemma {:induction false} RunningCount(ids: set<nat>, leases: seq<Lease>, since: int)
    requires forall l: nat :: l in ids <==> l < |leases| && !leases[l].released && leases[l].stamp > since
    ensures |ids| == Running(leases, since)
    decreases |leases|
  {
    if leases == [] {
      assert ids == {};
    } else {
      var n := |leases| - 1;
      RunningCount(ids - {n}, leases[..n], since);
    }
  }

  /** No unreleased lease has outlived its lease time. */
  ghost predicate Timely(leases: seq<Lease>, leaseMs: nat, now: int) {
    forall l :: 0 <= l < |leases| && !leases[l].released ==> now < leases[l].stamp + leaseMs
  }

  lemma {:induction false} RunningAtMost(leases: seq<Lease>, since: int)
    ensures Running(leases, since) <= Unreleased(leases)
    ensures (forall l :: 0 <= l < |leases| && !leases[l].released ==> leases[l].stamp > since) ==>
      Running(leases, since) == Unreleased(leases)
  {
    if leases != [] {
      var n := |leases| - 1;
      RunningAtMost(leases[..n], since);
    }
  }

  // -- one script call ---------------------------------------------------------------------------------

  /** The snapshot script. */
  ghost function RedisSnapshot(k0: Keys, now: int): (nat, nat, Keys) {
    var k := Trim(Visible(k0, now), now);
    (|k.active|, SumOver(k.counts, k.counts.Keys), k)
  }

  lemma {:induction false} SnapshotShows(leaseMs: nat, k: Keys, leases: seq<Lease>, last: int, now: int)
    requires TracksTokens(k, leases, last) && TracksActive(k, leases, leaseMs, last) && last <= now
    ensures var (active, reserved, k') := RedisSnapshot(k, now);
      && active == Running(leases, now - leaseMs) && reserved == TokensOf(Standing(leases, now - WINDOW))
      && TracksTokens(k', leases, now) && TracksActive(k', leases, leaseMs, now)
  {
    VisibleTracks(k, leases, leaseMs, last, now);
    var v := Visible(k, now);
    TrimTokens(v, leases, now);
    TrimActive(v, leases, leaseMs, now);
    var t := Trim(v, now);
    forall l | l in t.counts ensures t.counts[l] == leases[l].tokens {
      assert TokenEntry(t, leases[l], l);
    }
    SumIsStanding(t.counts, leases, now - WINDOW);
    RunningCount(t.active.Keys, leases, now - leaseMs);
  }

  /** What an acquisition decides, in terms of the ledger. */
  lemma {:induction false} AcquireDecides(p: Policy, leaseMs: nat, k: Keys, leases: seq<Lease>, last: int, now: int,
                                          tokens: nat)
    requires TracksTokens(k, leases, last) && TracksActive(k, leases, leaseMs, last) && last <= now
    ensures var verdict := RedisAcquire(p, leaseMs, k, now, tokens, |leases|).0;
      && (verdict.Concurrency? <==> Running(leases, now - leaseMs) >= p.maxConcurrent)
      && (verdict.Granted? <==> Running(leases, now - leaseMs) < p.maxConcurrent &&
                                TokensOf(Standing(leases, now - WINDOW)) + tokens <= p.tokensPerMinute)
  {
    SnapshotShows(leaseMs, k, leases, last, now);
  }

  /**
   * What the script advertises with a token rejection: a time after which nothing now standing stands any more,
   * and the least such number of seconds that is enough whatever the ledger, a lease granted just now included.
   */
  lemma {:induction false} RetryEmptiesWindow(p: Policy, leaseMs: nat, k: Keys, leases: seq<Lease>, now: int,
                                              tokens: nat, retry: nat)
    requires Chronological(leases, now)
    requires RedisAcquire(p, leaseMs, k, now, tokens, |leases|).0 == TokenRate(retry)
    ensures Standing(leases, now + 1_000 * retry - WINDOW) == []
    ensures retry > 0 && forall l: Lease :: l.stamp == now && !l.rolledBack ==>
      Standing(leases + [l], now + 1_000 * retry - WINDOW) == [] &&
      Standing(leases + [l], now + 1_000 * (retry - 1) - WINDOW) != []
  {
    NoneStanding(leases, now);
    forall l: Lease | l.stamp == now && !l.rolledBack
      ensures Standing(leases + [l], now) == []
      ensures Standing(leases + [l], now - 1_000) != [] {
      StandingSnoc(leases, l, now);
      StandingSnoc(leases, l, now - 1_000);
    }
  }

  lemma {:induction false} NoneStanding(leases: seq<Lease>, cutoff: int)
    requires forall i :: 0 <= i < |leases| ==> leases[i].stamp <= cutoff
    ensures Standing(leases, cutoff) == []
  {
    if leases != [] {
      NoneStanding(leases[..|leases| - 1], cutoff);
    }
  }

  lemma {:induction false} GrantTracks(k: Keys, leases: seq<Lease>, leaseMs: nat, now: int, tokens: nat)
    requires TracksTokens(k, leases, now) && TracksActive(k, leases, leaseMs, now) && Chronological(leases, now)
    ensures var n, l := |leases|, Lease(now, tokens, false, false);
      var g := Keys(k.active[n := now + leaseMs], k.tokens[n := now], k.counts[n := tokens],
                    now + leaseMs + SLACK, now + TOKENS_TTL, now + TOKENS_TTL);
      TracksTokens(g, leases + [l], now) && TracksActive(g, leases + [l], leaseMs, now)
  {
    var n, after := |leases|, leases + [Lease(now, tokens, false, false)];
    var g := Keys(k.active[n := now + leaseMs], k.tokens[n := now], k.counts[n := tokens],
                  now + leaseMs + SLACK, now + TOKENS_TTL, now + TOKENS_TTL);
    forall l | l in g.tokens ensures l < |after| && TokenEntry(g, after[l], l) {
      if l != n {
        assert TokenEntry(k, leases[l], l);
      }
    }
    forall l | l in g.active ensures l < |after| && ActiveEntry(g, after[l], leaseMs, l) {
      if l != n {
        assert ActiveEntry(k, leases[l], leaseMs, l);
      }
    }
    forall l: nat | l < |after| && Stands(after[l], now - WINDOW) ensures l in g.tokens {
      if l < n {
        assert Stands(leases[l], now - WINDOW);
      }
    }
  }

  lemma {:induction false} AcquireTracks(p: Policy, leaseMs: nat, k: Keys, leases: seq<Lease>, last: int, now: int,
                                         tokens: nat)
    requires TracksTokens(k, leases, last) && TracksActive(k, leases, leaseMs, last) && last <= now
    requires Chronological(leases, last)
    ensures var (verdict, k') := RedisAcquire(p, leaseMs, k, now, tokens, |leases|);
      var after := Granting(leases, verdict, now, tokens);
      TracksTokens(k', after, now) && TracksActive(k', after, leaseMs, now)
  {
    VisibleTracks(k, leases, leaseMs, last, now);
    var v := Visible(k, now);
    TrimTokens(v, leases, now);
    TrimActive(v, leases, leaseMs, now);
    GrantTracks(Trim(v, now), leases, leaseMs, now, tokens);
  }

  lemma {:induction false} ReleaseTracks(leaseMs: nat, k: Keys, leases: seq<Lease>, last: int, now: int, id: nat,
                                         rollback: bool)
    requires TracksTokens(k, leases, last) && TracksActive(k, leases, leaseMs, last) && last <= now
    requires Releases(leases, id) && ReleasedFirst(leases)
    ensures var k', after := RedisRelease(k, now, id, rollback), Releasing(leases, id, rollback);
      TracksTokens(k', after, now) && TracksActive(k', after, leaseMs, now)
  {
    VisibleTracks(k, leases, leaseMs, last, now);
    DropTokens(Visible(k, now), leases, now, id, rollback);
    DropActive(Visible(k, now), leases, leaseMs, now, id, rollback);
  }

  lemma {:induction false} DropTokens(v: Keys, leases: seq<Lease>, now: int, id: nat, rollback: bool)
    requires TracksTokens(v, leases, now) && Releases(leases, id) && ReleasedFirst(leases)
    ensures TracksTokens(v.(active := v.active - {id}, tokens := if rollback then v.tokens - {id} else v.tokens,
                            counts := if rollback then v.counts - {id} else v.counts),
                         Releasing(leases, id, rollback), now)
  {
    var after := Releasing(leases, id, rollback);
    var k' := v.(active := v.active - {id}, tokens := if rollback then v.tokens - {id} else v.tokens,
                 counts := if rollback then v.counts - {id} else v.counts);
    forall l | l in k'.tokens ensures l < |after| && TokenEntry(k', after[l], l) {
      assert TokenEntry(v, leases[l], l);
    }
    forall l: nat | l < |after| && Stands(after[l], now - WINDOW) ensures l in k'.tokens {
      assert Stands(leases[l], now - WINDOW);
    }
  }

  lemma {:induction false} DropActive(v: Keys, leases: seq<Lease>, leaseMs: nat, now: int, id: nat, rollback: bool)
    requires TracksActive(v, leases, leaseMs, now) && Releases(leases, id)
    ensures TracksActive(v.(active := v.active - {id}, tokens := if rollback then v.tokens - {id} else v.tokens,
                            counts := if rollback then v.counts - {id} else v.counts),
                         Releasing(leases, id, rollback), leaseMs, now)
  {
    var after := Releasing(leases, id, rollback);
    var k' := v.(active := v.active - {id}, tokens := if rollback then v.tokens - {id} else v.tokens,
                 counts := if rollback then v.counts - {id} else v.counts);
    forall l | l in k'.active ensures l < |after| && ActiveEntry(k', after[l], leaseMs, l) {
      assert ActiveEntry(v, leases[l], leaseMs, l);
    }
  }
}
