/** The two admission gates as objects, each operation tied to the values of `Admission` and `RedisAdmission`. */
module TenantGates {
  import opened Lists
  import opened Admission
  import opened RedisAdmission
  import opened AdmissionRuns

  class TenantLease {
    const tenant: Tenant
    const stamp: int
    const tokens: nat
    const id: nat
    var released: bool

    constructor (leaseTenant: Tenant, leaseStamp: int, leaseTokens: nat, leaseId: nat)
      ensures tenant == leaseTenant && stamp == leaseStamp && tokens == leaseTokens && id == leaseId && !released
    {
      tenant, stamp, tokens, id, released := leaseTenant, leaseStamp, leaseTokens, leaseId, false;
    }

    function Reserved(): Reservation {
      Reservation(stamp, tokens)
    }

    /** Idempotent: only the first release reaches the gate. */
    method Release(gate: TenantGate, rollback: bool)
      requires gate.Valid() && tenant in gate.policies
      modifies this, gate
      ensures released && gate.Valid()
      ensures gate.AccountOf(tenant) ==
        if old(released) then old(gate.AccountOf(tenant))
          else Admission.Release(old(gate.AccountOf(tenant)), Reserved(), rollback)
      ensures forall t :: t in gate.policies && t != tenant ==> gate.AccountOf(t) == old(gate.AccountOf(t))
    {
      if !released {
        released := true;
        gate.Release(this, rollback);
      }
    }

    method ReleaseRemote(gate: RedisTenantGate, now: int, rollback: bool)
      requires gate.Valid() && tenant in gate.policies
      modifies this, gate
      ensures released && gate.Valid()
      ensures gate.store[tenant] ==
        if old(released) then old(gate.store)[tenant] else RedisRelease(old(gate.store)[tenant], now, id, rollback)
      ensures forall t :: t in gate.policies && t != tenant ==> gate.store[t] == old(gate.store)[t]
    {
      if !released {
        released := true;
        gate.Release(this, now, rollback);
      }
    }
  }

  class TenantGate {
    const policies: map<Tenant, Policy>
    var active: map<Tenant, int>
    var tokens: map<Tenant, seq<Reservation>>

    ghost predicate Valid()
      reads this
    {
      active.Keys == policies.Keys && tokens.Keys == policies.Keys
    }

    ghost function AccountOf(tenant: Tenant): Account
      requires Valid() && tenant in policies
      reads this
    {
      Account(active[tenant], tokens[tenant])
    }

    constructor (tenantPolicies: map<Tenant, Policy>)
      ensures Valid() && policies == tenantPolicies
      ensures forall t :: t in policies ==> AccountOf(t) == Account(0, [])
    {
      policies := tenantPolicies;
      active := map t | t in tenantPolicies :: 0;
      tokens := map t | t in tenantPolicies :: [];
    }

    method Acquire(tenant: Tenant, amount: nat, now: int) returns (verdict: Verdict, lease: TenantLease?)
      requires Valid() && tenant in policies
      modifies this
      ensures Valid()
      ensures (verdict, AccountOf(tenant)) == Admission.Acquire(policies[tenant], old(AccountOf(tenant)), now, amount)
      ensures forall t :: t in policies && t != tenant ==> AccountOf(t) == old(AccountOf(t))
      ensures verdict.Granted? <==> lease != null
      ensures lease != null ==>
        fresh(lease) && !lease.released && lease.tenant == tenant && lease.Reserved() == Reservation(now, amount)
    {
      var history := tokens[tenant];
      while history != [] && history[0].stamp <= now - WINDOW
        invariant Prune(history, now - WINDOW) == Prune(tokens[tenant], now - WINDOW)
        decreases |history|
      {
        history := history[1..];
      }
      tokens := tokens[tenant := history];
      lease := null;
      var policy := policies[tenant];
      if active[tenant] >= policy.maxConcurrent {
        return Concurrency, null;
      }
      var sum := Total(history);
      if sum + amount > policy.tokensPerMinute {
        return TokenRate(RetryAfter(history, now)), null;
      }
      active := active[tenant := active[tenant] + 1];
      tokens := tokens[tenant := history + [Reservation(now, amount)]];
      lease := new TenantLease(tenant, now, amount, 0);
      verdict := Granted;
    }

    method Release(lease: TenantLease, rollback: bool)
      requires Valid() && lease.tenant in policies
      modifies this
      ensures Valid()
      ensures AccountOf(lease.tenant) == Admission.Release(old(AccountOf(lease.tenant)), lease.Reserved(), rollback)
      ensures forall t :: t in policies && t != lease.tenant ==> AccountOf(t) == old(AccountOf(t))
    {
      active := active[lease.tenant := active[lease.tenant] - 1];
      if rollback {
        var history := RemoveOne(tokens[lease.tenant], lease.Reserved());
        tokens := tokens[lease.tenant := history];
      }
    }

    method Snapshot(tenant: Tenant, now: int) returns (inUse: int, reserved: nat)
      requires Valid() && tenant in policies
      ensures inUse == AccountOf(tenant).active
      ensures reserved == TokensOf(Younger(AccountOf(tenant).history, now - WINDOW))
    {
      inUse := active[tenant];
      var history := tokens[tenant];
      var young: seq<Reservation> := [];
      for i := 0 to |history|
        invariant young == Younger(history[..i], now - WINDOW)
      {
        assert history[..i + 1][..i] == history[..i];
        if history[i].stamp > now - WINDOW {
          young := young + [history[i]];
        }
      }
      assert history[..|history|] == history;
      reserved := Total(young);
    }
  }

  method Total(history: seq<Reservation>) returns (sum: nat)
    ensures sum == TokensOf(history)
  {
    sum := 0;
    for i := 0 to |history|
      invariant sum == TokensOf(history[..i])
    {
      assert history[..i + 1][..i] == history[..i];
      sum := sum + history[i].tokens;
    }
    assert history[..|history|] == history;
  }

  /** `deque.remove`, a missing element being ignored. */
  method RemoveOne(history: seq<Reservation>, r: Reservation) returns (rest: seq<Reservation>)
    ensures rest == RemoveFirst(history, r)
  {
    hide RemoveFirst;
    var i := 0;
    assert history[..0] == [] && history[0..] == history;
    while i < |history| && history[i] != r
      invariant 0 <= i <= |history|
      invariant history[..i] + RemoveFirst(history[i..], r) == RemoveFirst(history, r)
    {
      RemovePasses(history, i, r);
      i := i + 1;
    }
    RemoveHere(history, i, r);
    rest := if i < |history| then history[..i] + history[i + 1..] else history;
  }

  lemma {:induction false} RemovePasses(history: seq<Reservation>, i: nat, r: Reservation)
    requires i < |history| && history[i] != r
    ensures history[..i + 1] + RemoveFirst(history[i + 1..], r) == history[..i] + RemoveFirst(history[i..], r)
  {
    assert history[i..][1..] == history[i + 1..] && history[i..][0] == history[i];
    assert RemoveFirst(history[i..], r) == [history[i]] + RemoveFirst(history[i + 1..], r);
    assert history[..i + 1] == history[..i] + [history[i]];
  }

  lemma {:induction false} RemoveHere(history: seq<Reservation>, i: nat, r: Reservation)
    requires i <= |history| && (i < |history| ==> history[i] == r)
    ensures history[..i] + RemoveFirst(history[i..], r) ==
      if i < |history| then history[..i] + history[i + 1..] else history
  {
    if i < |history| {
      assert history[i..][1..] == history[i + 1..] && history[i..][0] == history[i];
    } else {
      assert history[..i] == history && history[i..] == [];
    }
  }

  class RedisTenantGate {
    const policies: map<Tenant, Policy>
    const leaseMs: nat
    var store: map<Tenant, Keys>

    ghost predicate Valid()
      reads this
    {
      store.Keys == policies.Keys
    }

    constructor (tenantPolicies: map<Tenant, Policy>, leaseTime: nat, database: map<Tenant, Keys>)
      requires database.Keys == tenantPolicies.Keys
      ensures Valid() && policies == tenantPolicies && leaseMs == leaseTime && store == database
    {
      policies, leaseMs, store := tenantPolicies, leaseTime, database;
    }

    /** The acquire script; `id` is the fresh lease id. */
    method Acquire(tenant: Tenant, amount: nat, now: int, id: nat) returns (verdict: Verdict, lease: TenantLease?)
      requires Valid() && tenant in policies
      modifies this
      ensures Valid()
      ensures (verdict, store[tenant]) == RedisAcquire(policies[tenant], leaseMs, old(store)[tenant], now, amount, id)
      ensures forall t :: t in policies && t != tenant ==> store[t] == old(store)[t]
      ensures verdict.Granted? <==> lease != null
      ensures lease != null ==>
        fresh(lease) && !lease.released && lease.tenant == tenant && lease.id == id &&
          lease.Reserved() == Reservation(now, amount)
    {
      var k := TrimScript(Visible(store[tenant], now), now);
      store := store[tenant := k];
      lease := null;
      var policy := policies[tenant];
      if |k.active| >= policy.maxConcurrent {
        return Concurrency, null;
      }
      var reserved := SumValues(k.counts);
      if reserved + amount > policy.tokensPerMinute {
        return TokenRate(60), null;
      }
      store := store[tenant := Keys(k.active[id := now + leaseMs], k.tokens[id := now], k.counts[id := amount],
                                    now + leaseMs + SLACK, now + TOKENS_TTL, now + TOKENS_TTL)];
      lease := new TenantLease(tenant, now, amount, id);
      verdict := Granted;
    }

    /** The release script. */
    method Release(lease: TenantLease, now: int, rollback: bool)
      requires Valid() && lease.tenant in policies
      modifies this
      ensures Valid()
      ensures store[lease.tenant] == RedisRelease(old(store)[lease.tenant], now, lease.id, rollback)
      ensures forall t :: t in policies && t != lease.tenant ==> store[t] == old(store)[t]
    {
      var k := Visible(store[lease.tenant], now);
      k := k.(active := k.active - {lease.id});
      if rollback {
        k := k.(tokens := k.tokens - {lease.id}, counts := k.counts - {lease.id});
      }
      store := store[lease.tenant := k];
    }

    /** The snapshot script. */
    method Snapshot(tenant: Tenant, now: int) returns (inUse: nat, reserved: nat)
      requires Valid() && tenant in policies
      modifies this
      ensures Valid()
      ensures (inUse, reserved, store[tenant]) == RedisSnapshot(old(store)[tenant], now)
      ensures forall t :: t in policies && t != tenant ==> store[t] == old(store)[t]
    {
      var k := TrimScript(Visible(store[tenant], now), now);
      store := store[tenant := k];
      inUse := |k.active|;
      reserved := SumValues(k.counts);
    }
  }

  /** Members out of the window leave the hash one by one, then both sorted sets are cut by score. */
  method TrimScript(k: Keys, now: int) returns (t: Keys)
    ensures t == Trim(k, now)
  {
    var expired := set l | l in k.tokens && k.tokens[l] <= now - WINDOW;
    var rest, counts := expired, k.counts;
    while rest != {}
      invariant rest <= expired
      invariant counts == k.counts - (expired - rest)
      decreases |rest|
    {
      var l :| l in rest;
      counts, rest := counts - {l}, rest - {l};
    }
    assert expired - {} == expired;
    t := k.(counts := counts, tokens := Above(k.tokens, now - WINDOW), active := Above(k.active, now));
  }

  // -- sequences of calls --------------------------------------------------------------------------------

  /** The lease objects handed out are those of the ledger, each a different one, numbered if the gate numbers them. */
  ghost predicate Handed(leases: seq<TenantLease>, ledger: seq<Lease>, tenant: Tenant, numbered: bool)
    reads leases
  {
    && |leases| == |ledger|
    && (forall i, j :: 0 <= i < j < |leases| ==> leases[i] != leases[j])
    && forall k :: 0 <= k < |leases| ==> Stands(leases[k], ledger[k], tenant) && (numbered ==> leases[k].id == k)
  }

  ghost predicate Stands(lease: TenantLease, entry: Lease, tenant: Tenant)
    reads lease
  {
    lease.tenant == tenant && lease.released == entry.released && lease.Reserved() == entry.Reserved()
  }

  /** Releasing a lease, if it is still held. */
  method ReleaseHeld(gate: TenantGate, tenant: Tenant, leases: seq<TenantLease>, l: nat, rollback: bool,
                     ghost ledger: seq<Lease>)
    requires gate.Valid() && tenant in gate.policies && Handed(leases, ledger, tenant, false)
    modifies gate, leases
    ensures gate.Valid()
    ensures forall t :: t in gate.policies && t != tenant ==> gate.AccountOf(t) == old(gate.AccountOf(t))
    ensures if Releases(ledger, l) then
      && gate.AccountOf(tenant) == Admission.Release(old(gate.AccountOf(tenant)), ledger[l].Reserved(), rollback)
      && Handed(leases, Releasing(ledger, l, rollback), tenant, false)
      else gate.AccountOf(tenant) == old(gate.AccountOf(tenant)) && Handed(leases, ledger, tenant, false)
  {
    hide Admission.Release;
    if l < |leases| && !leases[l].released {
      assert Stands(leases[l], ledger[l], tenant);
      leases[l].Release(gate, rollback);
    }
  }

  /** One call; whoever makes it keeps the leases it has been granted. */
  method AnswerLocally(gate: TenantGate, tenant: Tenant, leases: seq<TenantLease>, call: Call, ghost w: Local)
    returns (answer: Answer, kept: seq<TenantLease>)
    requires gate.Valid() && tenant in gate.policies && gate.AccountOf(tenant) == w.account
    requires Handed(leases, w.leases, tenant, false)
    modifies gate, leases
    ensures gate.Valid()
    ensures forall t :: t in gate.policies && t != tenant ==> gate.AccountOf(t) == old(gate.AccountOf(t))
    ensures var (a, w') := LocalCall(gate.policies[tenant], w, call);
      answer == a && gate.AccountOf(tenant) == w'.account && Handed(kept, w'.leases, tenant, false)
    ensures forall i :: 0 <= i < |kept| ==> kept[i] in leases || fresh(kept[i])
  {
    hide Admission.Acquire, Admission.Release, Younger, Prune;
    answer, kept := Done, leases;
    match call {
      case CallAcquire(now, amount) =>
        var verdict, lease := gate.Acquire(tenant, amount, now);
        if lease != null {
          kept := leases + [lease];
        }
        answer := Decided(verdict);
      case CallRelease(_, l, rollback) =>
        ReleaseHeld(gate, tenant, leases, l, rollback, w.leases);
      case CallSnapshot(now) =>
        var inUse, reserved := gate.Snapshot(tenant, now);
        answer := Shown(inUse, reserved);
    }
  }

  /** Any calls of one tenant on a fresh account: every answer and the account at the end are those of the run. */
  method ServeLocally(gate: TenantGate, tenant: Tenant, calls: seq<Call>) returns (answers: seq<Answer>)
    requires gate.Valid() && tenant in gate.policies && gate.AccountOf(tenant) == Account(0, [])
    modifies gate
    ensures gate.Valid() && |answers| == |calls|
    ensures forall k :: 0 <= k < |calls| ==>
      answers[k] == LocalCall(gate.policies[tenant], LocalRun(gate.policies[tenant], calls[..k]), calls[k]).0
    ensures gate.AccountOf(tenant) == LocalRun(gate.policies[tenant], calls).account
    ensures forall t :: t in gate.policies && t != tenant ==> gate.AccountOf(t) == old(gate.AccountOf(t))
  {
    hide LocalCall, Handed, LocalRun;
    ghost var p := gate.policies[tenant];
    LocalSteps(p, calls);
    var leases: seq<TenantLease> := [];
    NoneHanded(tenant, false);
    answers := [];
    for k := 0 to |calls|
      invariant gate.Valid() && |answers| == k
      invariant forall n :: 0 <= n < k ==> answers[n] == LocalCall(p, LocalRun(p, calls[..n]), calls[n]).0
      invariant gate.AccountOf(tenant) == LocalRun(p, calls[..k]).account
      invariant forall i :: 0 <= i < |leases| ==> fresh(leases[i])
      invariant Handed(leases, LocalRun(p, calls[..k]).leases, tenant, false)
      invariant forall t :: t in gate.policies && t != tenant ==> gate.AccountOf(t) == old(gate.AccountOf(t))
    {
      var answer, kept := AnswerLocally(gate, tenant, leases, calls[k], LocalRun(p, calls[..k]));
      answers, leases := answers + [answer], kept;
    }
    assert calls[..|calls|] == calls;
  }

  lemma {:induction false} LocalSteps(p: Policy, calls: seq<Call>)
    ensures LocalRun(p, calls[..0]) == Local(Account(0, []), [])
    ensures forall k :: 0 <= k < |calls| ==>
      LocalRun(p, calls[..k + 1]) == LocalCall(p, LocalRun(p, calls[..k]), calls[k]).1
  {
    hide LocalCall;
    forall k | 0 <= k < |calls|
      ensures LocalRun(p, calls[..k + 1]) == LocalCall(p, LocalRun(p, calls[..k]), calls[k]).1 {
      assert calls[..k + 1][..k] == calls[..k];
    }
  }

  lemma {:induction false} RemoteSteps(p: Policy, ms: nat, calls: seq<Call>)
    ensures RemoteRun(p, ms, calls[..0]) == Remote(Keys(map[], map[], map[], 0, 0, 0), [])
    ensures forall k :: 0 <= k < |calls| ==>
      RemoteRun(p, ms, calls[..k + 1]) == RemoteCall(p, ms, RemoteRun(p, ms, calls[..k]), calls[k]).1
  {
    hide RemoteCall;
    forall k | 0 <= k < |calls|
      ensures RemoteRun(p, ms, calls[..k + 1]) == RemoteCall(p, ms, RemoteRun(p, ms, calls[..k]), calls[k]).1 {
      assert calls[..k + 1][..k] == calls[..k];
    }
  }

  lemma {:induction false} NoneHanded(tenant: Tenant, numbered: bool)
    ensures Handed([], [], tenant, numbered)
  {
  }

  method ReleaseHeldRemotely(gate: RedisTenantGate, tenant: Tenant, leases: seq<TenantLease>, l: nat, now: int,
                             rollback: bool, ghost ledger: seq<Lease>)
    requires gate.Valid() && tenant in gate.policies && Handed(leases, ledger, tenant, true)
    modifies gate, leases
    ensures gate.Valid()
    ensures forall t :: t in gate.policies && t != tenant ==> gate.store[t] == old(gate.store)[t]
    ensures if Releases(ledger, l) then
      && gate.store[tenant] == RedisRelease(old(gate.store)[tenant], now, l, rollback)
      && Handed(leases, Releasing(ledger, l, rollback), tenant, true)
      else gate.store[tenant] == old(gate.store)[tenant] && Handed(leases, ledger, tenant, true)
  {
    hide RedisRelease;
    if l < |leases| && !leases[l].released {
      assert Stands(leases[l], ledger[l], tenant);
      leases[l].ReleaseRemote(gate, now, rollback);
    }
  }

  method AnswerRemotely(gate: RedisTenantGate, tenant: Tenant, leases: seq<TenantLease>, call: Call, ghost w: Remote)
    returns (answer: Answer, kept: seq<TenantLease>)
    requires gate.Valid() && tenant in gate.policies && gate.store[tenant] == w.keys
    requires Handed(leases, w.leases, tenant, true)
    modifies gate, leases
    ensures gate.Valid()
    ensures forall t :: t in gate.policies && t != tenant ==> gate.store[t] == old(gate.store)[t]
    ensures var (a, w') := RemoteCall(gate.policies[tenant], gate.leaseMs, w, call);
      answer == a && gate.store[tenant] == w'.keys && Handed(kept, w'.leases, tenant, true)
    ensures forall i :: 0 <= i < |kept| ==> kept[i] in leases || fresh(kept[i])
  {
    hide RedisAcquire, RedisRelease, RedisSnapshot;
    answer, kept := Done, leases;
    match call {
      case CallAcquire(now, amount) =>
        var verdict, lease := gate.Acquire(tenant, amount, now, |leases|);
        if lease != null {
          kept := leases + [lease];
        }
        answer := Decided(verdict);
      case CallRelease(now, l, rollback) =>
        ReleaseHeldRemotely(gate, tenant, leases, l, now, rollback, w.leases);
      case CallSnapshot(now) =>
        var inUse, reserved := gate.Snapshot(tenant, now);
        answer := Shown(inUse, reserved);
    }
  }

  /** The same over the Redis gate. */
  method ServeRemotely(gate: RedisTenantGate, tenant: Tenant, calls: seq<Call>) returns (answers: seq<Answer>)
    requires gate.Valid() && tenant in gate.policies && gate.store[tenant] == Keys(map[], map[], map[], 0, 0, 0)
    modifies gate
    ensures gate.Valid() && |answers| == |calls|
    ensures forall k :: 0 <= k < |calls| ==>
      answers[k] == RemoteCall(gate.policies[tenant], gate.leaseMs,
                               RemoteRun(gate.policies[tenant], gate.leaseMs, calls[..k]), calls[k]).0
    ensures gate.store[tenant] == RemoteRun(gate.policies[tenant], gate.leaseMs, calls).keys
    ensures forall t :: t in gate.policies && t != tenant ==> gate.store[t] == old(gate.store)[t]
  {
    hide RemoteCall, Handed, RemoteRun;
    ghost var p, ms := gate.policies[tenant], gate.leaseMs;
    RemoteSteps(p, ms, calls);
    var leases: seq<TenantLease> := [];
    NoneHanded(tenant, true);
    answers := [];
    for k := 0 to |calls|
      invariant gate.Valid() && |answers| == k
      invariant forall n :: 0 <= n < k ==> answers[n] == RemoteCall(p, ms, RemoteRun(p, ms, calls[..n]), calls[n]).0
      invariant gate.store[tenant] == RemoteRun(p, ms, calls[..k]).keys
      invariant forall i :: 0 <= i < |leases| ==> fresh(leases[i])
      invariant Handed(leases, RemoteRun(p, ms, calls[..k]).leases, tenant, true)
      invariant forall t :: t in gate.policies && t != tenant ==> gate.store[t] == old(gate.store)[t]
    {
      var answer, kept := AnswerRemotely(gate, tenant, leases, calls[k], RemoteRun(p, ms, calls[..k]));
      answers, leases := answers + [answer], kept;
    }
    assert calls[..|calls|] == calls;
  }

  /**
   * The two gate objects side by side, on one monotone clock, both fresh for the tenant and with the same policy for
   * it: if no lease is outlived they answer every call alike, and both keep the quota at every instant.
   */
  method ServeBoth(local: TenantGate, remote: RedisTenantGate, tenant: Tenant, calls: seq<Call>)
    returns (a: seq<Answer>, b: seq<Answer>)
    requires local.Valid() && tenant in local.policies && local.AccountOf(tenant) == Account(0, [])
    requires remote.Valid() && tenant in remote.policies && remote.store[tenant] == Keys(map[], map[], map[], 0, 0, 0)
    requires local.policies[tenant] == remote.policies[tenant] && Monotone(calls)
    modifies local, remote
    ensures |a| == |b| == |calls|
    ensures NoneOutlived(local.policies[tenant], remote.leaseMs, calls) ==>
      forall k :: 0 <= k < |calls| ==> Alike(a[k], b[k])
    ensures var leases := LocalRun(local.policies[tenant], calls).leases;
      forall t :: InWindow(leases, t) <= local.policies[tenant].tokensPerMinute
    ensures local.Valid() && 0 <= local.AccountOf(tenant).active <= local.policies[tenant].maxConcurrent
  {
    hide LocalCall, RemoteCall, LocalRun, RemoteRun, NoneOutlived, Alike, InWindow;
    ghost var p, ms := local.policies[tenant], remote.leaseMs;
    a := ServeLocally(local, tenant, calls);
    b := ServeRemotely(remote, tenant, calls);
    forall k | NoneOutlived(p, ms, calls) && 0 <= k < |calls| ensures Alike(a[k], b[k]) {
      var last := calls[|calls| - 1].now;
      RedisRefinesInProcess(p, ms, calls, k, last, Reservation(0, 0));
    }
    forall t: int ensures InWindow(LocalRun(p, calls).leases, t) <= p.tokensPerMinute {
      QuotaOverRuns(p, calls, t);
    }
    QuotaOverRuns(p, calls, 0);
  }
}
