/** Sequences of calls on one tenant: the quota over whole runs, and the Redis gate against the in-process gate. */
module AdmissionRuns {
  import opened Admission
  import opened RedisAdmission

  /** Lease `lease` is the one of the `lease`-th grant. */
  datatype Call = CallAcquire(now: int, tokens: nat) | CallRelease(now: int, lease: nat,
    rollback: bool) | CallSnapshot(now: int)

  datatype Answer = Decided(verdict: Verdict) | Done | Shown(active: int, reserved: nat)

  datatype Local = Local(account: Account, leases: seq<Lease>)

  datatype Remote = Remote(keys: Keys, leases: seq<Lease>)

  function LocalCall(p: Policy, w: Local, c: Call): (Answer, Local) {
    match c
    case CallAcquire(now, tokens) =>
      var (verdict, account) := Acquire(p, w.account, now, tokens);
      (Decided(verdict), Local(account, Granting(w.leases, verdict, now, tokens)))
    case CallRelease(_, k, rollback) =>
      if Releases(w.leases, k) then
        (Done, Local(Release(w.account, w.leases[k].Reserved(), rollback), Releasing(w.leases, k, rollback)))
      else (Done, w)
    case CallSnapshot(now) =>
      (Shown(w.account.active, TokensOf(Younger(w.account.history, now - WINDOW))), w)
  }

  ghost function RemoteCall(p: Policy, leaseMs: nat, w: Remote, c: Call): (Answer, Remote) {
    match c
    case CallAcquire(now, tokens) =>
      var (verdict, keys) := RedisAcquire(p, leaseMs, w.keys, now, tokens, |w.leases|);
      (Decided(verdict), Remote(keys, Granting(w.leases, verdict, now, tokens)))
    case CallRelease(now, k, rollback) =>
      if Releases(w.leases, k) then
        (Done, Remote(RedisRelease(w.keys, now, k, rollback), Releasing(w.leases, k, rollback)))
      else (Done, w)
    case CallSnapshot(now) =>
      var (active, reserved, keys) := RedisSnapshot(w.keys, now);
      (Shown(active, reserved), Remote(keys, w.leases))
  }

  function LocalRun(p: Policy, calls: seq<Call>): Local {
    if calls == [] then Local(Account(0, []), []) else
    LocalCall(p, LocalRun(p, calls[..|calls| - 1]), calls[|calls| - 1]).1
  }

  ghost function RemoteRun(p: Policy, leaseMs: nat, calls: seq<Call>): Remote {
    if calls == [] then Remote(Keys(map[], map[], map[], 0, 0, 0), []) else
    RemoteCall(p, leaseMs, RemoteRun(p, leaseMs, calls[..|calls| - 1]), calls[|calls| - 1]).1
  }

  /** The time of the latest call; before the first one, anything not later than it. */
  ghost predicate Monotone(calls: seq<Call>) {
    forall i, j :: 0 <= i < j < |calls| ==> calls[i].now <= calls[j].now
  }

  ghost predicate Until(calls: seq<Call>, t: int) {
    Monotone(calls) && forall i :: 0 <= i < |calls| ==> calls[i].now <= t
  }

  // -- the in-process gate ---------------------------------------------------------------------------

  ghost predicate LocalOk(p: Policy, w: Local, t: int) {
    && (exists cutoff :: Follows(w.account, w.leases, cutoff, t))
    && WithinQuota(p, w.leases) && 0 <= w.account.active <= p.maxConcurrent
  }

  lemma {:induction false} LocalLater(p: Policy, w: Local, t: int, t': int)
    requires LocalOk(p, w, t) && t <= t'
    ensures LocalOk(p, w, t')
  {
    var cutoff :| Follows(w.account, w.leases, cutoff, t);
    assert Follows(w.account, w.leases, cutoff, t');
  }

  lemma {:induction false} LocalCallOk(p: Policy, w: Local, c: Call)
    requires LocalOk(p, w, c.now)
    ensures LocalOk(p, LocalCall(p, w, c).1, c.now)
  {
    var cutoff :| Follows(w.account, w.leases, cutoff, c.now);
    match c
    case CallAcquire(now, tokens) =>
      AcquireFollows(p, w.account, w.leases, cutoff, now, now, tokens);
      var verdict := Acquire(p, w.account, now, tokens).0;
      if verdict.Granted? {
        GrantWithinQuota(p, w.leases, now, tokens);
      }
      assert Follows(LocalCall(p, w, c).1.account, LocalCall(p, w, c).1.leases, now - WINDOW, now);
    case CallRelease(now, k, rollback) =>
      if Releases(w.leases, k) {
        ReleaseFollows(w.account, w.leases, cutoff, now, k, rollback);
        UnreleasedAfter(w.leases, k, rollback);
        ReleaseWithinQuota(p, w.leases, k, rollback);
        assert Follows(LocalCall(p, w, c).1.account, LocalCall(p, w, c).1.leases, cutoff, now);
      }
    case CallSnapshot(_) =>
  }

  lemma {:induction false} LocalRunOk(p: Policy, calls: seq<Call>, t: int)
    requires Until(calls, t)
    ensures LocalOk(p, LocalRun(p, calls), t)
  {
    if calls == [] {
      assert Follows(Account(0, []), [], t - WINDOW, t);
    } else {
      var n := |calls| - 1;
      assert Until(calls[..n], calls[n].now);
      LocalRunOk(p, calls[..n], calls[n].now);
      LocalCallOk(p, LocalRun(p, calls[..n]), calls[n]);
      LocalLater(p, LocalRun(p, calls), calls[n].now, t);
    }
  }

  /**
   * Sliding-window quota over whole runs: at every instant the tokens admitted in the minute ending then and
   * not rolled back are within the tenant's budget; the slots in use are exactly the unreleased leases, never
   * more than allowed and never negative.
   */
  lemma {:induction false} QuotaOverRuns(p: Policy, calls: seq<Call>, t: int)
    requires Monotone(calls)
    ensures var w := LocalRun(p, calls);
      && InWindow(w.leases, t) <= p.tokensPerMinute
      && w.account.active == Unreleased(w.leases) && 0 <= w.account.active <= p.maxConcurrent
  {
    var last := if calls == [] then 0 else calls[|calls| - 1].now;
    LocalRunOk(p, calls, last);
    var w := LocalRun(p, calls);
    var cutoff :| Follows(w.account, w.leases, cutoff, last);
    WindowWithinQuota(p, w.leases, last, t);
  }

  // -- the Redis gate ----------------------------------------------------------------------------------

  ghost predicate RemoteOk(p: Policy, leaseMs: nat, w: Remote, t: int) {
    && Chronological(w.leases, t) && ReleasedFirst(w.leases) && WithinQuota(p, w.leases)
    && TracksTokens(w.keys, w.leases, t) && TracksActive(w.keys, w.leases, leaseMs, t)
  }

  lemma {:induction false} RemoteLater(p: Policy, leaseMs: nat, w: Remote, t: int, t': int)
    requires RemoteOk(p, leaseMs, w, t) && t <= t'
    ensures RemoteOk(p, leaseMs, w, t')
  {
  }

  lemma {:induction false} RemoteAcquireOk(p: Policy, leaseMs: nat, w: Remote, now: int, tokens: nat)
    requires RemoteOk(p, leaseMs, w, now)
    ensures RemoteOk(p, leaseMs, RemoteCall(p, leaseMs, w, CallAcquire(now, tokens)).1, now)
  {
    AcquireTracks(p, leaseMs, w.keys, w.leases, now, now, tokens);
    AcquireDecides(p, leaseMs, w.keys, w.leases, now, now, tokens);
    LedgerGrows(p, w.leases, RedisAcquire(p, leaseMs, w.keys, now, tokens, |w.leases|).0, now, tokens);
  }

  lemma {:induction false} LedgerGrows(p: Policy, leases: seq<Lease>, verdict: Verdict, now: int, tokens: nat)
    requires Chronological(leases, now) && ReleasedFirst(leases) && WithinQuota(p, leases)
    requires verdict.Granted? ==> TokensOf(Standing(leases, now - WINDOW)) + tokens <= p.tokensPerMinute
    ensures var after := Granting(leases, verdict, now, tokens);
      Chronological(after, now) && ReleasedFirst(after) && WithinQuota(p, after)
  {
    hide WithinQuota, TokensOf, Standing;
    if verdict.Granted? {
      GrantWithinQuota(p, leases, now, tokens);
    }
  }

  lemma {:induction false} RemoteCallOk(p: Policy, leaseMs: nat, w: Remote, c: Call)
    requires RemoteOk(p, leaseMs, w, c.now)
    ensures RemoteOk(p, leaseMs, RemoteCall(p, leaseMs, w, c).1, c.now)
  {
    match c
    case CallAcquire(now, tokens) => RemoteAcquireOk(p, leaseMs, w, now, tokens);
    case CallRelease(now, k, rollback) =>
      if Releases(w.leases, k) {
        ReleaseTracks(leaseMs, w.keys, w.leases, now, now, k, rollback);
        ReleaseWithinQuota(p, w.leases, k, rollback);
      }
    case CallSnapshot(now) =>
      SnapshotShows(leaseMs, w.keys, w.leases, now, now);
  }

  lemma {:induction false} RemoteRunOk(p: Policy, leaseMs: nat, calls: seq<Call>, t: int)
    requires Until(calls, t)
    ensures RemoteOk(p, leaseMs, RemoteRun(p, leaseMs, calls), t)
  {
    if calls != [] {
      var n := |calls| - 1;
      assert Until(calls[..n], calls[n].now);
      RemoteRunOk(p, leaseMs, calls[..n], calls[n].now);
      RemoteCallOk(p, leaseMs, RemoteRun(p, leaseMs, calls[..n]), calls[n]);
      RemoteLater(p, leaseMs, RemoteRun(p, leaseMs, calls), calls[n].now, t);
    }
  }

  /** The Redis gate keeps the quota in every run, whether or not leases outlive their time. */
  lemma {:induction false} RedisQuotaOverRuns(p: Policy, leaseMs: nat, calls: seq<Call>, t: int)
    requires Monotone(calls)
    ensures InWindow(RemoteRun(p, leaseMs, calls).leases, t) <= p.tokensPerMinute
  {
    var last := if calls == [] then 0 else calls[|calls| - 1].now;
    RemoteRunOk(p, leaseMs, calls, last);
    WindowWithinQuota(p, RemoteRun(p, leaseMs, calls).leases, last, t);
  }

  /**
   * In every run a token rejection of the Redis gate advertises a time after which no reservation now standing
   * stands any more, and a second less would not be enough for one granted just now.
   */
  lemma {:induction false} RedisRetryOverRuns(p: Policy, leaseMs: nat, calls: seq<Call>, now: int, tokens: nat,
                                              retry: nat)
    requires Until(calls, now)
    requires RemoteCall(p, leaseMs, RemoteRun(p, leaseMs, calls), CallAcquire(now, tokens)).0 ==
             Decided(TokenRate(retry))
    ensures var leases := RemoteRun(p, leaseMs, calls).leases;
      && TokensOf(Standing(leases, now - WINDOW)) + tokens > p.tokensPerMinute
      && Standing(leases, now + 1_000 * retry - WINDOW) == []
      && retry > 0 && forall l: Lease :: l.stamp == now && !l.rolledBack ==>
        Standing(leases + [l], now + 1_000 * retry - WINDOW) == [] &&
        Standing(leases + [l], now + 1_000 * (retry - 1) - WINDOW) != []
  {
    RemoteRunOk(p, leaseMs, calls, now);
    var w := RemoteRun(p, leaseMs, calls);
    AcquireDecides(p, leaseMs, w.keys, w.leases, now, now, tokens);
    RetryEmptiesWindow(p, leaseMs, w.keys, w.leases, now, tokens, retry);
  }

  /**
   * In every run a token rejection of the in-process gate advertises the least number of whole seconds strictly
   * longer than the oldest standing reservation has left: by then it has gone, and a whole second before nobody
   * has. With nothing standing the request alone exceeds the quota, and a whole window is advertised.
   */
  lemma {:induction false} RetryOverRuns(p: Policy, calls: seq<Call>, now: int, tokens: nat, retry: nat)
    requires Until(calls, now)
    requires LocalCall(p, LocalRun(p, calls), CallAcquire(now, tokens)).0 == Decided(TokenRate(retry))
    ensures var leases := LocalRun(p, calls).leases;
      var standing := Standing(leases, now - WINDOW);
      && TokensOf(standing) + tokens > p.tokensPerMinute
      && (standing == [] ==> 1_000 * retry == WINDOW)
      && (standing != [] ==> retry >= 1 && |Standing(leases, now + 1_000 * retry - 1 - WINDOW)| < |standing|)
      && (standing != [] && retry > 1 ==> Standing(leases, now + 1_000 * (retry - 1) - 1 - WINDOW) == standing)
  {
    LocalRunOk(p, calls, now);
    var w := LocalRun(p, calls);
    var cutoff :| Follows(w.account, w.leases, cutoff, now);
    AcquireFollows(p, w.account, w.leases, cutoff, now, now, tokens);
    RetryExactly(p, w.account, w.leases, cutoff, now, tokens, retry);
  }

  // -- refinement -----------------------------------------------------------------------------------------

  /** The same answer, but for the seconds of a token rejection. */
  predicate Alike(a: Answer, b: Answer) {
    if a.Decided? && a.verdict.TokenRate? then b.Decided? && b.verdict.TokenRate? else a == b
  }

  /** At every call, no lease still held has outlived the lease time. */
  ghost predicate NoneOutlived(p: Policy, leaseMs: nat, calls: seq<Call>) {
    calls == [] ||
    var init, last := calls[..|calls| - 1], calls[|calls| - 1];
    NoneOutlived(p, leaseMs, init) && Timely(LocalRun(p, init).leases, leaseMs, last.now)
  }

  lemma {:induction false} NoneOutlivedBefore(p: Policy, leaseMs: nat, calls: seq<Call>, n: nat)
    requires NoneOutlived(p, leaseMs, calls) && n <= |calls|
    ensures NoneOutlived(p, leaseMs, calls[..n])
    ensures n < |calls| ==> Timely(LocalRun(p, calls[..n]).leases, leaseMs, calls[n].now)
    decreases |calls|
  {
    if n == |calls| {
      assert calls[..n] == calls;
    } else if n < |calls| - 1 {
      assert calls[..|calls| - 1][..n] == calls[..n];
      NoneOutlivedBefore(p, leaseMs, calls[..|calls| - 1], n);
    }
  }

  /** The verdicts on an acquisition, given what each gate's contract says of them. */
  predicate Verdicts(p: Policy, held: nat, standing: nat, verdict: Verdict) {
    && (verdict.Concurrency? <==> held >= p.maxConcurrent)
    && (verdict.Granted? <==> held < p.maxConcurrent && standing <= p.tokensPerMinute)
  }

  lemma {:induction false} AlikeVerdicts(p: Policy, held: nat, running: nat, standing: nat, a: Verdict, b: Verdict)
    requires Verdicts(p, held, standing, a) && Verdicts(p, running, standing, b) && running <= held
    ensures Alike(Decided(a), Decided(b)) <==> held < p.maxConcurrent || running >= p.maxConcurrent
    ensures Alike(Decided(a), Decided(b)) ==> (a.Granted? <==> b.Granted?)
  {
  }

  /**
   * Exactly when one acquisition is answered alike, leases outlived or not: unless every slot is taken in
   * process while Redis has already forgotten an outlived one.
   */
  lemma {:induction false} AcquireAlikeExactly(p: Policy, leaseMs: nat, a: Local, b: Remote, now: int, tokens: nat)
    requires LocalOk(p, a, now) && RemoteOk(p, leaseMs, b, now) && a.leases == b.leases
    ensures var v, w := Acquire(p, a.account, now, tokens).0,
      RedisAcquire(p, leaseMs, b.keys, now, tokens, |b.leases|).0;
      && (Alike(Decided(v), Decided(w)) <==>
            Unreleased(a.leases) < p.maxConcurrent || Running(a.leases, now - leaseMs) >= p.maxConcurrent)
      && (Alike(Decided(v), Decided(w)) ==> (v.Granted? <==> w.Granted?))
  {
    hide RedisAcquire, Acquire, LocalOk, RemoteOk, Verdicts, Alike, Running, Unreleased, TokensOf, Standing;
    LocalVerdict(p, a, now, tokens);
    RemoteVerdict(p, leaseMs, b, now, tokens);
    RunningAtMost(a.leases, now - leaseMs);
    AlikeVerdicts(p, Unreleased(a.leases), Running(a.leases, now - leaseMs),
                  TokensOf(Standing(a.leases, now - WINDOW)) + tokens,
                  Acquire(p, a.account, now, tokens).0, RedisAcquire(p, leaseMs, b.keys, now, tokens, |b.leases|).0);
  }

  lemma {:induction false} LocalVerdict(p: Policy, a: Local, now: int, tokens: nat)
    requires LocalOk(p, a, now)
    ensures Verdicts(p, Unreleased(a.leases), TokensOf(Standing(a.leases, now - WINDOW)) + tokens,
      Acquire(p, a.account, now, tokens).0)
  {
    hide TokensOf, Standing;
    hide Acquire;
    var cutoff :| Follows(a.account, a.leases, cutoff, now);
    AcquireFollows(p, a.account, a.leases, cutoff, now, now, tokens);
  }

  lemma {:induction false} RemoteVerdict(p: Policy, leaseMs: nat, b: Remote, now: int, tokens: nat)
    requires RemoteOk(p, leaseMs, b, now)
    ensures Verdicts(p, Running(b.leases, now - leaseMs), TokensOf(Standing(b.leases, now - WINDOW)) + tokens,
                     RedisAcquire(p, leaseMs, b.keys, now, tokens, |b.leases|).0)
  {
    hide RedisAcquire;
    AcquireDecides(p, leaseMs, b.keys, b.leases, now, now, tokens);
  }

  lemma {:induction false} LocalSnapshot(p: Policy, a: Local, now: int)
    requires LocalOk(p, a, now)
    ensures a.account.active == Unreleased(a.leases)
    ensures TokensOf(Younger(a.account.history, now - WINDOW)) == TokensOf(Standing(a.leases, now - WINDOW))
  {
    var cutoff :| Follows(a.account, a.leases, cutoff, now);
    PruneFollows(a.account, a.leases, cutoff, now, now);
    PruneIsYounger(a.account.history, now - WINDOW, now);
  }

  lemma {:induction false} SnapshotAlike(p: Policy, leaseMs: nat, a: Local, b: Remote, now: int)
    requires LocalOk(p, a, now) && RemoteOk(p, leaseMs, b, now)
    requires a.leases == b.leases && Timely(a.leases, leaseMs, now)
    ensures a.account.active == RedisSnapshot(b.keys, now).0
    ensures TokensOf(Younger(a.account.history, now - WINDOW)) == RedisSnapshot(b.keys, now).1
  {
    hide RedisSnapshot, LocalOk;
    LocalSnapshot(p, a, now);
    RunningAtMost(a.leases, now - leaseMs);
    SnapshotShows(leaseMs, b.keys, b.leases, now, now);
  }

  lemma {:induction false} CallAlike(p: Policy, leaseMs: nat, a: Local, b: Remote, c: Call)
    requires LocalOk(p, a, c.now) && RemoteOk(p, leaseMs, b, c.now)
    requires a.leases == b.leases && Timely(a.leases, leaseMs, c.now)
    ensures Alike(LocalCall(p, a, c).0, RemoteCall(p, leaseMs, b, c).0)
    ensures LocalCall(p, a, c).1.leases == RemoteCall(p, leaseMs, b, c).1.leases
  {
    hide RedisAcquire, Acquire, RedisSnapshot, RedisRelease, RemoteOk, LocalOk, Timely;
    match c
    case CallAcquire(now, tokens) => AcquireAlike(p, leaseMs, a, b, now, tokens);
    case CallRelease(_, _, _) =>
    case CallSnapshot(now) => SnapshotAlike(p, leaseMs, a, b, now);
  }

  lemma {:induction false} AcquireAlike(p: Policy, leaseMs: nat, a: Local, b: Remote, now: int, tokens: nat)
    requires LocalOk(p, a, now) && RemoteOk(p, leaseMs, b, now)
    requires a.leases == b.leases && Timely(a.leases, leaseMs, now)
    ensures var v, w := Acquire(p, a.account, now, tokens).0,
      RedisAcquire(p, leaseMs, b.keys, now, tokens, |b.leases|).0;
      Alike(Decided(v), Decided(w)) && (v.Granted? <==> w.Granted?)
  {
    hide RedisAcquire, Acquire, LocalOk, RemoteOk;
    RunningAtMost(a.leases, now - leaseMs);
    AcquireAlikeExactly(p, leaseMs, a, b, now, tokens);
  }

  lemma {:induction false} SameLeases(p: Policy, leaseMs: nat, calls: seq<Call>)
    requires Monotone(calls) && NoneOutlived(p, leaseMs, calls)
    ensures LocalRun(p, calls).leases == RemoteRun(p, leaseMs, calls).leases
  {
    if calls != [] {
      var n := |calls| - 1;
      SameLeases(p, leaseMs, calls[..n]);
      SameAtLast(p, leaseMs, calls[..n], calls[n]);
    }
  }

  lemma {:induction false} SameAtLast(p: Policy, leaseMs: nat, calls: seq<Call>, c: Call)
    requires Until(calls, c.now) && Timely(LocalRun(p, calls).leases, leaseMs, c.now)
    requires LocalRun(p, calls).leases == RemoteRun(p, leaseMs, calls).leases
    ensures Alike(LocalCall(p, LocalRun(p, calls), c).0, RemoteCall(p, leaseMs, RemoteRun(p, leaseMs, calls), c).0)
    ensures LocalCall(p, LocalRun(p, calls), c).1.leases ==
      RemoteCall(p, leaseMs, RemoteRun(p, leaseMs, calls), c).1.leases
  {
    LocalRunOk(p, calls, c.now);
    RemoteRunOk(p, leaseMs, calls, c.now);
    CallAlike(p, leaseMs, LocalRun(p, calls), RemoteRun(p, leaseMs, calls), c);
  }

  /** How often a reservation occurs among the keys' entries of the minute before `t`. */
  ghost function Held(k: Keys, t: int, r: Reservation): nat {
    |HeldIds(k, t, r)|
  }

  ghost function HeldIds(k: Keys, t: int, r: Reservation): set<nat> {
    set l | l in k.tokens && l in k.counts && k.tokens[l] > t - WINDOW && Reservation(k.tokens[l], k.counts[l]) == r
  }

  lemma {:induction false} StandingCount(ids: set<nat>, leases: seq<Lease>, cutoff: int, r: Reservation)
    requires forall l: nat :: l in ids <==> l < |leases| && Stands(leases[l], cutoff) && leases[l].Reserved() == r
    ensures |ids| == multiset(Standing(leases, cutoff))[r]
    decreases |leases|
  {
    if leases == [] {
      assert ids == {};
    } else {
      var n := |leases| - 1;
      assert leases == leases[..n] + [leases[n]];
      StandingSnoc(leases[..n], leases[n], cutoff);
      StandingCount(ids - {n}, leases[..n], cutoff, r);
    }
  }

  lemma {:induction false} LocalReservations(p: Policy, a: Local, t: int)
    requires LocalOk(p, a, t)
    ensures multiset(Younger(a.account.history, t - WINDOW)) == multiset(Standing(a.leases, t - WINDOW))
  {
    var cutoff :| Follows(a.account, a.leases, cutoff, t);
    YoungerSame(a.account.history, Standing(a.leases, cutoff), t - WINDOW);
    StandingYounger(a.leases, cutoff, t - WINDOW);
  }

  lemma {:induction false} RemoteReservations(k: Keys, leases: seq<Lease>, t: int, r: Reservation)
    requires TracksTokens(k, leases, t)
    ensures Held(k, t, r) == multiset(Standing(leases, t - WINDOW))[r]
  {
    forall l | l in k.tokens ensures l in k.counts && l < |leases| && k.tokens[l] == leases[l].stamp &&
                                     k.counts[l] == leases[l].tokens && !leases[l].rolledBack {
      assert TokenEntry(k, leases[l], l);
    }
    StandingCount(HeldIds(k, t, r), leases, t - WINDOW, r);
  }

  /** Both gates hold the same reservations of the minute before `t`, as multisets. */
  lemma {:induction false} SameReservations(p: Policy, leaseMs: nat, a: Local, b: Remote, t: int, r: Reservation)
    requires LocalOk(p, a, t) && RemoteOk(p, leaseMs, b, t) && a.leases == b.leases
    ensures multiset(Younger(a.account.history, t - WINDOW))[r] == Held(Visible(b.keys, t), t, r)
  {
    LocalReservations(p, a, t);
    VisibleTracks(b.keys, b.leases, leaseMs, t, t);
    RemoteReservations(Visible(b.keys, t), b.leases, t, r);
  }

  /**
   * The Redis gate refines the in-process gate. On one monotone clock, for any calls in which no lease
   * outlives the lease time: both answer every call alike, with the same reason; at the end and at any later
   * instant both hold the same reservations of the last minute; and the token keys list the same leases.
   */
  lemma {:induction false} RedisRefinesInProcess(p: Policy, leaseMs: nat, calls: seq<Call>, n: nat, t: int,
                                                 r: Reservation)
    requires Until(calls, t) && NoneOutlived(p, leaseMs, calls) && n < |calls|
    ensures Alike(LocalCall(p, LocalRun(p, calls[..n]), calls[n]).0,
      RemoteCall(p, leaseMs, RemoteRun(p, leaseMs, calls[..n]), calls[n]).0)
    ensures var a, b := LocalRun(p, calls), RemoteRun(p, leaseMs, calls);
      && a.leases == b.leases
      && multiset(Younger(a.account.history, t - WINDOW))[r] == Held(Visible(b.keys, t), t, r)
      && b.keys.tokens.Keys == b.keys.counts.Keys
  {
    NoneOutlivedBefore(p, leaseMs, calls, n);
    SameLeases(p, leaseMs, calls[..n]);
    SameLeases(p, leaseMs, calls);
    SameAtLast(p, leaseMs, calls[..n], calls[n]);
    LocalRunOk(p, calls, t);
    RemoteRunOk(p, leaseMs, calls, t);
    SameReservations(p, leaseMs, LocalRun(p, calls), RemoteRun(p, leaseMs, calls), t, r);
  }

  /** Two calls on which they differ: one slot, held for the whole lease time. */
  lemma {:induction false} OutlivedLease(leaseMs: nat)
    ensures var p, calls := Policy(1, 256), [CallAcquire(0, 1)];
      && LocalCall(p, LocalRun(p, calls), CallAcquire(leaseMs, 1)).0 == Decided(Concurrency)
      && RemoteCall(p, leaseMs, RemoteRun(p, leaseMs, calls), CallAcquire(leaseMs, 1)).0 == Decided(Granted)
  {
    hide RedisAcquire;
    var p, calls := Policy(1, 256), [CallAcquire(0, 1)];
    assert calls[..0] == [];
    LocalRunOk(p, [], 0);
    RemoteRunOk(p, leaseMs, [], 0);
    RemoteRunOk(p, leaseMs, calls, leaseMs);
    assert TokensOf([]) == 0 && Unreleased([]) == 0 && Running([], 0 - leaseMs) == 0;
    AcquireDecides(p, leaseMs, Keys(map[], map[], map[], 0, 0, 0), [], 0, 0, 1);
    OneOutlived(p, leaseMs, RemoteRun(p, leaseMs, calls).keys);
  }

  lemma {:induction false} OneOutlived(p: Policy, leaseMs: nat, k: Keys)
    requires p == Policy(1, 256)
    requires TracksTokens(k, [Lease(0, 1, false, false)], leaseMs)
    requires TracksActive(k, [Lease(0, 1, false, false)], leaseMs, leaseMs)
    ensures RedisAcquire(p, leaseMs, k, leaseMs, 1, 1).0 == Granted
  {
    var l := Lease(0, 1, false, false);
    StandingSnoc([], l, leaseMs - WINDOW);
    assert [l][..0] == [] && Running([l], 0) == 0 && [] + [l] == [l];
    assert [Reservation(0, 1)][..0] == [] && TokensOf([Reservation(0, 1)]) == 1;
    AcquireDecides(p, leaseMs, k, [l], leaseMs, leaseMs, 1);
  }
}
