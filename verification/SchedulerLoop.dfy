/** `Scheduler` as an object over the runner: each handler leaves exactly the state its specification names. */
module SchedulerLoop {
  import opened Lists
  import opened Transformer
  import opened KvCache
  import opened Packing
  import opened Padding
  import opened Runner
  import opened Scheduling
  import opened RaggedEngine
  import SchedulerCore
  import SchedulerPlan
  import SchedulerRun

  class Scheduler {
    const cfg: Config
    const runner: RaggedRunner
    var requests: seq<Req>
    var waiting: seq<nat>
    var active: seq<nat>
    var phase: Phase
    var metrics: Metrics

    ghost function State(): Sys
      reads this, runner, runner.cache, runner.cache.allocator, runner.cache.pool
    {
      Sys(runner.cache.State(), requests, waiting, active, phase, metrics)
    }

    ghost predicate Valid()
      reads this, runner, runner.cache, runner.cache.allocator, runner.cache.pool
    {
      && runner.Valid() && runner.Warmed()
      && runner.graph == cfg.graph && runner.maxModelLen == cfg.maxModelLen && runner.activeLimit == cfg.activeLimit
      && (forall i :: i in waiting ==> i < |requests|) && (forall i :: i in active ==> i < |requests|)
      && forall k :: 0 <= k < |requests| ==> requests[k].prompt != []
    }

    constructor (config: Config, ragged: RaggedRunner)
      requires ragged.Valid() && ragged.Warmed()
      requires ragged.graph == config.graph && ragged.maxModelLen == config.maxModelLen
      requires ragged.activeLimit == config.activeLimit
      ensures Valid() && cfg == config && runner == ragged
      ensures State() == Sys(ragged.cache.State(), [], [], [], Idle, NoWork())
    {
      cfg, runner := config, ragged;
      requests, waiting, active, phase, metrics := [], [], [], Idle, NoWork();
    }

    // -- streams -------------------------------------------------------------------------------

    /** Moves pending events into the bounded queue; starts or stops the stall clock. */
    method DrainPending(i: nat, now: int)
      requires Valid() && i < |requests|
      modifies this`requests
      ensures Valid() && State() == old(State()).Set(i, Drained(old(State()).Get(i), cfg.streamCapacity, now))
    {
      var r := requests[i];
      while r.pending != [] && !QueueFull(cfg.streamCapacity, |r.queue|)
        invariant Drained(r, cfg.streamCapacity, now) == Drained(old(requests)[i], cfg.streamCapacity, now)
        invariant r.prompt == old(requests)[i].prompt
        decreases |r.pending|
      {
        r := r.(queue := r.queue + [r.pending[0]], pending := r.pending[1..]);
      }
      if r.pending == [] {
        r := r.(stalled := None);
      } else if r.stalled.None? {
        r := r.(stalled := Some(now));
      }
      requests := requests[i := r];
    }

    method Publish(i: nat, e: StreamEvent, now: int)
      requires Valid() && i < |requests|
      modifies this`requests
      ensures Valid() && State() == old(State()).Set(i, Published(old(State()).Get(i), e, cfg.streamCapacity, now))
    {
      requests := requests[i := requests[i].(pending := requests[i].pending + [e])];
      DrainPending(i, now);
      assert requests == old(requests)[i := requests[i]];
    }

    // -- the terminal funnel ----------------------------------------------------------------------

    method Count(r: Req)
      modifies this`metrics
      ensures metrics == Counted(old(metrics), r)
    {
      match r.state
      case Completed => metrics := metrics.(completed := metrics.completed + 1);
      case Cancelled => metrics := metrics.(cancelled := metrics.cancelled + 1);
      case TimedOut => metrics := metrics.(timedOut := metrics.timedOut + 1);
      case Failed =>
        if r.rejected {
          metrics := metrics.(rejected := metrics.rejected + 1);
        } else {
          metrics := metrics.(failed := metrics.failed + 1);
        }
      case _ =>
    }

    /** Out of both lists, and out of the cache. */
    method Detach(i: nat)
      requires Valid() && i < |requests|
      modifies this`active, this`waiting, runner.cache, runner.cache.allocator, runner.cache.pool
      ensures Valid()
      ensures State() == old(State()).(active := RemoveFirst(old(active), i), waiting := RemoveFirst(old(waiting), i),
                                       cache := Teardown(old(State()).cache, i, old(requests)[i].prompt))
    {
      hide Cache.Valid;
      Removal(active, i);
      Removal(waiting, i);
      active := RemoveFirst(active, i);
      waiting := RemoveFirst(waiting, i);
      runner.Release(i, requests[i].prompt);
    }

    /** STOP behind everything undelivered, the future resolved, the outcome counted. */
    method Close(i: nat, now: int)
      requires Valid() && i < |requests|
      modifies this`requests, this`metrics
      ensures Valid()
      ensures var r := old(requests)[i];
        State() == old(State()).(metrics := Counted(old(metrics), r)).Set(i, FinalRecord(r, cfg.streamCapacity, now))
    {
      hide RaggedRunner.Valid;
      var r := requests[i];
      SchedulerCore.DrainedFacts(r.(pending := r.pending + [STOP]), cfg.streamCapacity, now);
      Publish(i, STOP, now);
      Resolve(i);
      assert requests == old(requests)[i := FinalRecord(r, cfg.streamCapacity, now)];
      Count(r);
    }

    method Finalize(i: nat, now: int)
      requires Valid() && i < |requests|
      modifies this, runner.cache, runner.cache.allocator, runner.cache.pool
      ensures Valid() && State() == Scheduling.Finalize(cfg, old(State()), i, now)
      ensures |requests| == |old(requests)| && phase == old(phase)
    {
      hide RaggedRunner.Valid, Teardown, Counted, FinalRecord;
      Detach(i);
      Close(i, now);
    }

    /** The future is resolved once. */
    method Resolve(i: nat)
      requires Valid() && i < |requests|
      modifies this`requests
      ensures Valid()
      ensures var r := old(requests)[i];
        requests == old(requests)[i := r.(finalized := r.finalized + 1, resolved := if r.resolved == 0 then 1
          else r.resolved)]
    {
      var r := requests[i];
      var resolved := r.resolved;
      if resolved == 0 {
        resolved := 1;
      }
      requests := requests[i := r.(finalized := r.finalized + 1, resolved := resolved)];
    }

    method SetState(i: nat, r: Req)
      requires Valid() && i < |requests| && r.prompt == requests[i].prompt
      modifies this`requests
      ensures Valid() && State() == old(State()).Set(i, r)
    {
      requests := requests[i := r];
    }

    method Fail(i: nat, rejected: bool, now: int)
      requires Valid() && i < |requests|
      modifies this, runner.cache, runner.cache.allocator, runner.cache.pool
      ensures Valid() && State() == Scheduling.Fail(cfg, old(State()), i, rejected, now)
      ensures |requests| == |old(requests)| && phase == old(phase)
    {
      if !requests[i].Terminal() {
        SetState(i, requests[i].(state := Failed, rejected := rejected));
        Finalize(i, now);
      }
    }

    /** Idempotent; a request in flight is only marked. */
    method Cancel(i: nat, now: int)
      requires Valid() && i < |requests|
      modifies this, runner.cache, runner.cache.allocator, runner.cache.pool
      ensures Valid() && State() == Scheduling.Cancel(cfg, old(State()), i, now)
      ensures |requests| == |old(requests)| && phase == old(phase)
    {
      if requests[i].Terminal() {
        return;
      }
      SetState(i, requests[i].(state := Cancelled));
      if phase.Idle? || i !in ItemIds(phase.items) {
        Finalize(i, now);
      }
    }

    // -- submission ------------------------------------------------------------------------------------

    method Submit(prompt: seq<Token>, maxOut: int, eos: Option<Token>, now: int) returns (rejection: Option<Rejection>)
      requires Valid()
      modifies this`requests, this`waiting
      ensures Valid() && rejection == SubmitCheck(cfg, old(State()), prompt, maxOut)
      ensures State() == Scheduling.Submit(cfg, old(State()), prompt, maxOut, eos, now)
    {
      if prompt == [] || |prompt| + maxOut > cfg.maxModelLen {
        return Some(ContextOverflow);
      }
      if |waiting| >= cfg.maxQueue {
        return Some(QueueIsFull);
      }
      waiting := waiting + [|requests|];
      requests := requests + [NewRequest(prompt, maxOut, eos, now)];
      rejection := None;
    }

    // -- one iteration, up to the plan ----------------------------------------------------------

    method TimeOut(i: nat, now: int)
      requires Valid() && i < |requests|
      modifies this, runner.cache, runner.cache.allocator, runner.cache.pool
      ensures Valid() && State() == Scheduling.TimeOut(cfg, old(State()), i, now)
      ensures |requests| == |old(requests)| && phase == old(phase)
    {
      Removal(waiting, i);
      waiting := RemoveFirst(waiting, i);
      SetState(i, requests[i].(state := TimedOut));
      Finalize(i, now);
    }

    method ReapQueue(now: int)
      requires Valid()
      modifies this, runner.cache, runner.cache.allocator, runner.cache.pool
      ensures Valid() && State() == ReapWaiting(cfg, old(State()), old(waiting), now)
      ensures |requests| == |old(requests)| && phase == old(phase)
    {
      hide RaggedRunner.Valid, Scheduling.TimeOut;
      var snapshot := waiting;
      for k := 0 to |snapshot|
        invariant Valid() && |requests| == |old(requests)| && phase == old(phase)
        invariant forall j :: j in snapshot ==> j < |requests|
        invariant ReapWaiting(cfg, State(), snapshot[k..], now) == ReapWaiting(cfg, old(State()), snapshot, now)
      {
        var i := snapshot[k];
        assert i in snapshot && snapshot[k..][1..] == snapshot[k + 1..];
        if !requests[i].Terminal() && now - requests[i].arrival > cfg.queueTimeout {
          TimeOut(i, now);
        }
      }
    }

    method ReapStalled(now: int)
      requires Valid()
      modifies this, runner.cache, runner.cache.allocator, runner.cache.pool
      ensures Valid() && State() == ReapActive(cfg, old(State()), old(active), now)
      ensures |requests| == |old(requests)| && phase == old(phase)
    {
      hide RaggedRunner.Valid, Scheduling.Cancel;
      var snapshot := active;
      for k := 0 to |snapshot|
        invariant Valid() && |requests| == |old(requests)| && phase == old(phase)
        invariant forall j :: j in snapshot ==> j < |requests|
        invariant ReapActive(cfg, State(), snapshot[k..], now) == ReapActive(cfg, old(State()), snapshot, now)
      {
        var i := snapshot[k];
        assert i in snapshot && snapshot[k..][1..] == snapshot[k + 1..];
        if requests[i].stalled.Some? && now - requests[i].stalled.value > cfg.stallTimeout {
          Cancel(i, now);
        }
      }
    }

    /** Timed-out waiters first, then consumers stalled too long. */
    method Reap(now: int)
      requires Valid()
      modifies this, runner.cache, runner.cache.allocator, runner.cache.pool
      ensures Valid() && State() == Scheduling.Reap(cfg, old(State()), now)
      ensures |requests| == |old(requests)| && phase == old(phase)
    {
      ReapQueue(now);
      ReapStalled(now);
    }

    method DrainActiveStreams(now: int)
      requires Valid()
      modifies this`requests
      ensures Valid() && State() == DrainStreams(cfg, old(State()), active, now)
    {
      for k := 0 to |active|
        invariant Valid() && |requests| == |old(requests)|
        invariant DrainStreams(cfg, State(), active[k..], now) == DrainStreams(cfg, old(State()), active, now)
      {
        assert active[k] in active && active[k..][1..] == active[k + 1..];
        if requests[active[k]].pending != [] {
          DrainPending(active[k], now);
        }
      }
    }

    /** The popped candidate is admitted, or refused for the reason its reservation failed. */
    method AdmitOne(i: nat, now: int)
      requires Valid() && i < |requests|
      modifies this, runner.cache, runner.cache.allocator, runner.cache.pool
      ensures Valid() && State() == Scheduling.AdmitOne(cfg, old(State()), i, now)
      ensures |requests| == |old(requests)| && phase == old(phase) && |waiting| <= |old(waiting)|
    {
      hide Cache.Valid;
      RemoveFirstShrinks(waiting, i);
      var resident := i in runner.cache.tables;
      var fed := runner.Admit(i, requests[i].prompt);
      if fed.None? {
        Fail(i, !resident, now);
        return;
      }
      requests := requests[i := requests[i].(state := Prefill, fed := fed.value)];
      active := active + [i];
    }

    method AdmitWaiting(now: int)
      requires Valid()
      modifies this, runner.cache, runner.cache.allocator, runner.cache.pool
      ensures Valid() && State() == Scheduling.AdmitWaiting(cfg, old(State()), now)
      ensures |requests| == |old(requests)| && phase == old(phase)
    {
      hide RaggedRunner.Valid, Scheduling.AdmitOne;
      while waiting != [] && |active| < cfg.activeLimit
        invariant Valid() && |requests| == |old(requests)| && phase == old(phase)
        invariant Scheduling.AdmitWaiting(cfg, State(), now) == Scheduling.AdmitWaiting(cfg, old(State()), now)
        decreases |waiting|
      {
        var candidate := waiting[0];
        assert candidate in waiting && forall j :: j in waiting[1..] ==> j in waiting;
        if requests[candidate].preemptions > 0 && active != [] {
          return;
        }
        RemoveFirstShrinks(waiting[1..], candidate);
        waiting := waiting[1..];
        AdmitOne(candidate, now);
      }
    }

    // -- the plan ---------------------------------------------------------------------------------

    /** Every unfinished request is fully fed or a candidate: what `CandidateOf` needs. */
    method ListCandidates() returns (candidates: seq<Candidate>)
      requires Valid()
      ensures candidates == Candidates(State(), active)
    {
      candidates := [];
      for k := 0 to |active|
        invariant candidates == Candidates(State(), active[..k])
      {
        assert active[k] in active && active[..k + 1][..k] == active[..k];
        var r := requests[active[k]];
        if !r.Terminal() && r.pending == [] && r.stalled.None? {
          var remaining := |r.prompt| + |r.generated| - r.fed;
          if remaining > 0 {
            candidates := candidates +
              [Candidate(active[k], r.state.Decoding? && remaining == 1, remaining, |r.prompt|, |r.generated|,
                r.arrival)];
          }
        }
      }
      assert active[..|active|] == active;
    }

    /**
     * Decode slices are one token, prefill slices at most a chunk, never more than the budget; none when all is
     * fed.
     */
    method SliceFor(c: Candidate, budget: Positive) returns (item: Option<BatchItem>)
      requires Valid() && c.id < |requests|
      ensures item.None? <==> State().Get(c.id).fed >= |State().Get(c.id).Known()|
      ensures item.Some? ==> item.value == ItemFor(cfg, State(), c, budget)
    {
      var r := requests[c.id];
      var known := r.prompt + r.generated;
      var remaining := |known| - r.fed;
      if remaining <= 0 {
        return None;
      }
      var length := Min(Min(remaining, if c.decode then 1 else cfg.chunk), budget);
      var end := r.fed + length;
      item := Some(BatchItem(c.id, known[r.fed..end], r.fed, end == |known|, length == 1 && r.fed >= |r.prompt|));
    }

    /** The shared token budget, handed out in rank order. */
    method BuildBatchPlan() returns (items: seq<BatchItem>)
      requires Valid()
      ensures items == BuildPlan(cfg, State())
    {
      hide Fill, ItemFor, Candidates, Sorted, RaggedRunner.Valid;
      var candidates := ListCandidates();
      var sorted := Sorted(cfg.priority, candidates);
      SortedInRange(State(), active, cfg.priority);
      items := [];
      var budget: int := cfg.budget;
      var k := 0;
      assert sorted[0..] == sorted;
      while k < |sorted| && budget > 0
        invariant 0 <= k <= |sorted|
        invariant items + Fill(cfg, State(), sorted[k..], budget) == Fill(cfg, State(), sorted, cfg.budget)
      {
        FillSkips(cfg, State(), sorted, k, budget);
        var slice := SliceFor(sorted[k], budget);
        if slice.Some? {
          FillTurn(cfg, State(), sorted, k, budget, slice.value);
          items := items + [slice.value];
          budget := budget - |slice.value.tokens|;
        }
        k := k + 1;
      }
      FillEnds(cfg, State(), sorted[k..], budget);
    }

    /** One turn of the loop up to the plan. */
    method Iterate(now: int)
      requires Valid() && phase.Idle?
      modifies this, runner.cache, runner.cache.allocator, runner.cache.pool
      ensures Valid() && State() == Scheduling.Iterate(cfg, old(State()), now)
    {
      hide RaggedRunner.Valid, RaggedRunner.Warmed, Scheduling.Reap, DrainStreams, Scheduling.AdmitWaiting, BuildPlan;
      Reap(now);
      DrainActiveStreams(now);
      AdmitWaiting(now);
      var items := BuildBatchPlan();
      phase := if items == [] then Idle else Planned(items);
    }

    // -- execution ---------------------------------------------------------------------------------

    /** `execute_batch` in a worker thread; the tables, lengths and fed counts move together or not at all. */
    method Execute()
      requires Valid() && phase.Planned? && NoDup(ItemIds(phase.items)) && TokenCount(phase.items) > 0
      requires AllDecode(phase.items) ==> TokenCount(phase.items) <= cfg.activeLimit
      requires forall k :: 0 <= k < |phase.items| ==> phase.items[k].id < |requests|
      modifies this, runner, runner.cache, runner.cache.allocator, runner.cache.pool
      ensures Valid() && State() == ExecuteStep(runner.model, cfg, old(State()), old(phase).items)
    {
      hide Cache.Valid, Runner.Execute;
      var items := phase.items;
      var outcome := runner.ExecuteBatch(items);
      Land(items, outcome, outcome.Ran?);
      FedElsewhere(old(State()), items, runner.cache.State());
    }

    /** The call has returned or raised; fed counts move if its commit was reached. */
    method Land(items: seq<BatchItem>, outcome: Outcome, ran: bool)
      requires Valid() && forall k :: 0 <= k < |items| ==> items[k].id < |requests|
      modifies this`requests, this`phase, this`metrics
      ensures Valid() && State() == Scheduling.Land(old(State()), items, outcome, old(State()).cache, ran)
    {
      hide RaggedRunner.Valid;
      if ran {
        FeedAll(items);
      }
      phase := Landed(items, outcome);
      metrics := metrics.(plans := metrics.plans + 1, tokens := metrics.tokens + if ran then TokenCount(items) else 0);
    }

    /** An exception out of the forward. */
    method ExecuteFails(written: seq<Layer>)
      requires Valid() && phase.Planned? && NoDup(ItemIds(phase.items))
      requires WritesMapped(cfg.graph, cfg.maxModelLen, State().cache, phase.items, written)
      requires forall k :: 0 <= k < |phase.items| ==> phase.items[k].id < |requests|
      modifies this, runner.cache, runner.cache.allocator, runner.cache.pool
      ensures Valid() && State() == Scheduling.ExecuteFails(cfg, old(State()), old(phase).items, written)
    {
      hide Cache.Valid, Runner.ExecuteFailing, WritesMapped;
      var items := phase.items;
      var outcome := runner.FailBatch(items, written);
      Land(items, outcome, false);
    }

    /** An exception after the commit, while sampling. */
    method ExecuteFailsLate()
      requires Valid() && phase.Planned? && NoDup(ItemIds(phase.items)) && TokenCount(phase.items) > 0
      requires AllDecode(phase.items) ==> TokenCount(phase.items) <= cfg.activeLimit
      requires forall k :: 0 <= k < |phase.items| ==> phase.items[k].id < |requests|
      modifies this, runner, runner.cache, runner.cache.allocator, runner.cache.pool
      ensures Valid() && State() == Scheduling.ExecuteFailsLate(runner.model, cfg, old(State()), old(phase).items)
    {
      hide Cache.Valid, Runner.Execute;
      var items := phase.items;
      var outcome := runner.ExecuteBatch(items);
      Land(items, if outcome.Ran? then Crashed else outcome, outcome.Ran?);
      FedElsewhere(old(State()), items, runner.cache.State());
    }


    method FeedAll(items: seq<BatchItem>)
      requires Valid() && forall k :: 0 <= k < |items| ==> items[k].id < |requests|
      modifies this`requests
      ensures Valid() && State() == FedAll(old(State()), items)
    {
      hide RaggedRunner.Valid, RaggedRunner.Warmed;
      for k := 0 to |items|
        invariant Valid() && |requests| == |old(requests)|
        invariant State() == FedAll(old(State()), items[..k])
      {
        assert items[..k + 1][..k] == items[..k];
        var r := requests[items[k].id];
        requests := requests[items[k].id := r.(fed := items[k].End(), executed := r.executed + |items[k].tokens|)];
      }
      assert items[..|items|] == items;
    }

    // -- post-processing ---------------------------------------------------------------------------

    method AfterToken(i: nat, token: Token, now: int)
      requires Valid() && i < |requests|
      modifies this, runner.cache, runner.cache.allocator, runner.cache.pool
      ensures Valid() && State() == Scheduling.AfterToken(cfg, old(State()), i, token, now)
      ensures |requests| == |old(requests)| && phase == old(phase)
    {
      hide RaggedRunner.Valid, Drained;
      var r := requests[i];
      var eosHit := r.eos == Some(token);
      SetState(i, r.(generated := r.generated + [token]));
      var limitHit := |requests[i].generated| >= r.maxOut;
      Publish(i, StreamEvent(if eosHit then None else Some(token), false), now);
      SetState(i, requests[i].(state := if eosHit || limitHit then Completed else Decoding));
      assert requests == old(requests)[i := WithToken(r, token, cfg.streamCapacity, now)];
      if eosHit || limitHit {
        Finalize(i, now);
      }
    }

    method PostItem(item: BatchItem, outputs: map<nat, Token>, now: int)
      requires Valid() && item.id < |requests|
      modifies this, runner.cache, runner.cache.allocator, runner.cache.pool
      ensures Valid() && State() == Scheduling.PostItem(cfg, old(State()), item, outputs, now)
      ensures |requests| == |old(requests)| && phase == old(phase)
    {
      hide RaggedRunner.Valid, Scheduling.Finalize, Scheduling.AfterToken;
      var i := item.id;
      if requests[i].Terminal() {
        Finalize(i, now);
        return;
      }
      var recomputed := Min(item.End(), requests[i].recomputeUntil) - item.start;
      if recomputed > 0 {
        SetState(i, requests[i].(recomputed := requests[i].recomputed + recomputed));
      } else {
        assert requests[i := requests[i]] == requests;
      }
      if !item.sample {
        SetState(i, requests[i].(state := Prefill));
      } else if i !in outputs {
        Fail(i, false, now);
      } else {
        AfterToken(i, outputs[i], now);
      }
    }

    method PostRan(items: seq<BatchItem>, outputs: map<nat, Token>, now: int)
      requires Valid() && forall k :: 0 <= k < |items| ==> items[k].id < |requests|
      modifies this, runner.cache, runner.cache.allocator, runner.cache.pool
      ensures Valid() && State() == Scheduling.PostRan(cfg, old(State()), items, outputs, now)
    {
      hide RaggedRunner.Valid, Scheduling.PostItem;
      for k := 0 to |items|
        invariant Valid() && |requests| == |old(requests)|
        invariant Scheduling.PostRan(cfg, State(), items[k..], outputs, now) ==
          Scheduling.PostRan(cfg, old(State()), items, outputs, now)
      {
        assert items[k..][1..] == items[k + 1..];
        PostItem(items[k], outputs, now);
      }
    }

    method PostCrashed(items: seq<BatchItem>, now: int)
      requires Valid() && forall k :: 0 <= k < |items| ==> items[k].id < |requests|
      modifies this, runner.cache, runner.cache.allocator, runner.cache.pool
      ensures Valid() && State() == Scheduling.PostCrashed(cfg, old(State()), items, now)
    {
      hide RaggedRunner.Valid, Scheduling.Finalize, Scheduling.Fail;
      for k := 0 to |items|
        invariant Valid() && |requests| == |old(requests)|
        invariant Scheduling.PostCrashed(cfg, State(), items[k..], now) ==
          Scheduling.PostCrashed(cfg, old(State()), items, now)
      {
        assert items[k..][1..] == items[k + 1..];
        if requests[items[k].id].Terminal() {
          Finalize(items[k].id, now);
        } else {
          Fail(items[k].id, false, now);
        }
      }
    }

    method RankOf(i: nat) returns (rank: seq<int>)
      requires Valid() && i < |requests|
      ensures rank == VictimRank(cfg, State(), i)
    {
      var r := requests[i];
      var room := runner.AllocatedTokens(i);
      rank := cfg.victimPriority(VictimCandidate(i, room, r.fed, |r.generated|, r.arrival));
    }

    method ListLiving() returns (living: seq<nat>)
      requires Valid()
      ensures living == Living(State(), active) && forall j :: j in living ==> j in active
    {
      hide RaggedRunner.Valid;
      living := [];
      for k := 0 to |active|
        invariant living == Living(State(), active[..k])
        invariant forall j :: j in living ==> j in active
      {
        assert active[k] in active && active[..k + 1][..k] == active[..k];
        if !requests[active[k]].Terminal() {
          living := living + [active[k]];
        }
      }
      assert active[..|active|] == active;
    }

    /** `max` over the candidates: the first of the highest-ranked. */
    method Highest(living: seq<nat>) returns (best: nat)
      requires Valid() && living != [] && forall j :: j in living ==> j < |requests|
      ensures best == Victim(cfg, State(), living)
    {
      hide RaggedRunner.Valid, TupleLess, VictimRank;
      best := living[0];
      assert living[..1] == [living[0]];
      for k := 1 to |living|
        invariant best == Victim(cfg, State(), living[..k]) && best in living
      {
        assert living[k] in living && living[..k + 1][..k] == living[..k];
        var bestRank := RankOf(best);
        var rank := RankOf(living[k]);
        if TupleLess(bestRank, rank) {
          best := living[k];
        }
      }
      assert living[..|living|] == living;
    }

    /** None when at most one resident is unfinished. */
    method PickVictim() returns (victim: Option<nat>)
      requires Valid()
      ensures victim.Some? <==> CanPreempt(State())
      ensures victim.Some? ==> victim.value == Victim(cfg, State(), Living(State(), active)) && victim.value in active
    {
      hide RaggedRunner.Valid, Living, VictimRank;
      var living := ListLiving();
      if |living| <= 1 {
        return None;
      }
      var best := Highest(living);
      victim := Some(best);
    }

    /** Evict a running request for recompute, if there is more than one to run. */
    method PreemptForCapacity() returns (done: bool)
      requires Valid()
      modifies this, runner.cache, runner.cache.allocator, runner.cache.pool
      ensures Valid() && done == CanPreempt(old(State()))
      ensures State() == if done
        then Evicted(old(State()), Victim(cfg, old(State()), Living(old(State()), old(active)))) else old(State())
    {
      hide RaggedRunner.Valid, Victim, Living, Teardown;
      var victim := PickVictim();
      if victim.None? {
        return false;
      }
      Preempt(victim.value);
      done := true;
    }

    method Preempt(v: nat)
      requires Valid() && v in active
      modifies this, runner.cache, runner.cache.allocator, runner.cache.pool
      ensures Valid() && State() == Evicted(old(State()), v)
    {
      hide Cache.Valid;
      Removal(active, v);
      active := RemoveFirst(active, v);
      runner.Release(v, requests[v].prompt);
      var r := requests[v];
      requests := requests[v := r.(recomputeUntil := r.fed, fed := 0, preemptions := r.preemptions + 1,
        state := Waiting)];
      waiting := waiting + [v];
      metrics := metrics.(preempted := metrics.preempted + 1);
    }

    /** A capacity error: preempt, or reject what cannot be run even alone. */
    method PostCapacity(items: seq<BatchItem>, now: int)
      requires Valid() && forall k :: 0 <= k < |items| ==> items[k].id < |requests|
      modifies this, runner.cache, runner.cache.allocator, runner.cache.pool
      ensures Valid() && State() == Scheduling.PostCapacity(cfg, old(State()), items, now)
    {
      hide RaggedRunner.Valid, Evicted, Victim, Living, Scheduling.Fail;
      var preempted := PreemptForCapacity();
      if !preempted {
        for k := 0 to |items|
          invariant Valid() && |requests| == |old(requests)|
          invariant PostRejected(cfg, State(), items[k..], now) == PostRejected(cfg, old(State()), items, now)
        {
          assert items[k..][1..] == items[k + 1..];
          Fail(items[k].id, true, now);
        }
      }
    }

    /** What the loop does once `execute_batch` has returned or raised. */
    method Post(now: int)
      requires Valid() && phase.Landed? && forall k :: 0 <= k < |phase.items| ==> phase.items[k].id < |requests|
      modifies this, runner.cache, runner.cache.allocator, runner.cache.pool
      ensures Valid() && State() == Scheduling.Post(cfg, old(State()), now)
    {
      hide RaggedRunner.Valid, Scheduling.PostRan, Scheduling.PostCapacity, Scheduling.PostCrashed;
      var items, outcome := phase.items, phase.outcome;
      phase := Idle;
      match outcome
      case Ran(outputs) => PostRan(items, outputs, now);
      case CapacityError => PostCapacity(items, now);
      case Crashed => PostCrashed(items, now);
    }

    // -- runs ----------------------------------------------------------------------------------------

    /** The client takes the next event off its queue. */
    method Consume(i: nat)
      requires Valid()
      modifies this`requests
      ensures Valid() && State() == Scheduling.Consume(old(State()), i)
    {
      if i < |requests| && requests[i].queue != [] {
        var r := requests[i];
        requests := requests[i := r.(queue := r.queue[1..], consumed := r.consumed + [r.queue[0]])];
      }
    }

    /** The handler of one event; a failing forward has written at most the slots of its batch. */
    method Apply(e: Event)
      requires Valid() && SchedulerRun.Inv(runner.model, cfg, State()) && Plausible(cfg, State(), e)
      modifies this, runner, runner.cache, runner.cache.allocator, runner.cache.pool
      ensures Valid() && State() == Step(runner.model, cfg, old(State()), e)
      ensures SchedulerRun.Inv(runner.model, cfg, State())
    {
      hide SchedulerRun.Inv, RaggedRunner.Valid, RaggedRunner.Warmed;
      SchedulerRun.StepInv(runner.model, cfg, State(), e);
      if !phase.Idle? {
        InFlightReady(runner.model, cfg, State());
      }
      match e
      case ESubmit(prompt, maxOut, eos, now) => var rejection := Submit(prompt, maxOut, eos, now);
      case ECancel(i, now) => if i < |requests| { Cancel(i, now); }
      case EConsume(i) => Consume(i);
      case EIterate(now) => if phase.Idle? { Iterate(now); }
      case EExecute => if phase.Planned? { Execute(); }
      case EExecuteFails(written) => if phase.Planned? { ExecuteFails(written); }
      case EExecuteFailsLate => if phase.Planned? { ExecuteFailsLate(); }
      case EPost(now) => if phase.Landed? { Post(now); }
    }

    /** Any sequence of events, from any state of the invariant. */
    method Serve(events: seq<Event>)
      requires Valid() && SchedulerRun.Inv(runner.model, cfg, State())
      requires AllPlausible(runner.model, cfg, State(), events)
      modifies this, runner, runner.cache, runner.cache.allocator, runner.cache.pool
      ensures Valid() && State() == Scheduling.Run(runner.model, cfg, old(State()), events)
      ensures SchedulerRun.Inv(runner.model, cfg, State())
    {
      hide SchedulerRun.Inv, RaggedRunner.Valid, RaggedRunner.Warmed, Plausible, Step;
      for k := 0 to |events|
        invariant Valid() && SchedulerRun.Inv(runner.model, cfg, State())
        invariant State() == Scheduling.Run(runner.model, cfg, old(State()), events[..k])
      {
        assert events[..k + 1][..k] == events[..k];
        Apply(events[k]);
      }
      assert events[..|events|] == events;
    }
  }

  /** The event does not have a forward write outside its batch's slots. */
  ghost predicate Plausible(cfg: Config, s: Sys, e: Event) {
    e.EExecuteFails? && s.phase.Planned? ==> WritesMapped(cfg.graph, cfg.maxModelLen, s.cache, s.phase.items, e.pool)
  }

  ghost predicate AllPlausible(m: Model, cfg: Config, s: Sys, events: seq<Event>) {
    forall k :: 0 <= k < |events| ==> Plausible(cfg, Scheduling.Run(m, cfg, s, events[..k]), events[k])
  }

  /** What the invariant says of a plan in flight. */
  lemma {:induction false} InFlightReady(m: Model, cfg: Config, s: Sys)
    requires SchedulerRun.Inv(m, cfg, s) && !s.phase.Idle?
    ensures NoDup(ItemIds(s.phase.items)) && forall k :: 0 <= k < |s.phase.items| ==> s.phase.items[k].id < |s.reqs|
    ensures s.phase.Planned? ==> TokenCount(s.phase.items) > 0
    ensures s.phase.Planned? && AllDecode(s.phase.items) ==> TokenCount(s.phase.items) <= cfg.activeLimit
  {
    var items := s.phase.items;
    var mode := if s.phase.Planned? then SchedulerCore.Unfed else SchedulerRun.ModeOf(s.phase.outcome);
    InFlightItems(m, cfg, s, items, mode);
    if s.phase.Planned? {
      assert SchedulerCore.ItemInFlight(m, cfg, s, items[|items| - 1], SchedulerCore.Unfed);
      if AllDecode(items) {
        DecodesInFlight(m, cfg, s, items);
      }
    }
  }

  lemma {:induction false} InFlightItems(m: Model, cfg: Config, s: Sys, items: seq<BatchItem>, mode: SchedulerCore.Mode)
    requires SchedulerCore.Core(m, cfg, s, items, mode)
    ensures NoDup(ItemIds(items)) && forall k :: 0 <= k < |items| ==> items[k].id in s.active && items[k].id < |s.reqs|
  {
    forall k | 0 <= k < |items| ensures items[k].id in s.active && items[k].id < |s.reqs| {
      assert SchedulerCore.ItemInFlight(m, cfg, s, items[k], mode);
    }
  }

  lemma {:induction false} DecodesInFlight(m: Model, cfg: Config, s: Sys, items: seq<BatchItem>)
    requires SchedulerCore.Core(m, cfg, s, items, SchedulerCore.Unfed) && AllDecode(items) && items != []
    ensures TokenCount(items) <= cfg.activeLimit
  {
    InFlightItems(m, cfg, s, items, SchedulerCore.Unfed);
    forall k | 0 <= k < |items| ensures |items[k].tokens| == 1 {
      assert SchedulerCore.ItemInFlight(m, cfg, s, items[k], SchedulerCore.Unfed) && items[k] in items;
    }
    OneTokenFlat(items);
    SchedulerPlan.NoMoreThan(ItemIds(items), s.active);
  }

  lemma {:induction false} Removal(s: seq<nat>, x: nat)
    ensures forall y :: y in RemoveFirst(s, x) ==> y in s
  {
    if s != [] && s[0] != x {
      Removal(s[1..], x);
      assert s == [s[0]] + s[1..];
    }
  }

  /** A candidate with something left takes the next slice of the budget. */
  lemma {:induction false} FillTurn(cfg: Config, s: Sys, cs: seq<Candidate>, k: nat, budget: Positive, item: BatchItem)
    requires k < |cs| && s.Get(cs[k].id).fed < |s.Get(cs[k].id).Known()| && item == ItemFor(cfg, s, cs[k], budget)
    ensures Fill(cfg, s, cs[k..], budget) == [item] + Fill(cfg, s, cs[k + 1..], budget - |item.tokens|)
  {
    assert cs[k..][1..] == cs[k + 1..];
  }

  lemma {:induction false} FillSkips(cfg: Config, s: Sys, cs: seq<Candidate>, k: nat, budget: int)
    requires k < |cs| && budget > 0
    ensures s.Get(cs[k].id).fed >= |s.Get(cs[k].id).Known()| ==>
      Fill(cfg, s, cs[k..], budget) == Fill(cfg, s, cs[k + 1..], budget)
  {
    assert cs[k..][1..] == cs[k + 1..];
  }

  lemma {:induction false} FillEnds(cfg: Config, s: Sys, cs: seq<Candidate>, budget: int)
    requires cs == [] || budget <= 0
    ensures Fill(cfg, s, cs, budget) == []
  {
  }

  /** Feeding looks at the records only. */
  lemma {:induction false} FedElsewhere(s: Sys, items: seq<BatchItem>, cache: Cache)
    ensures FedAll(s.(cache := cache), items) == FedAll(s, items).(cache := cache)
  {
    if items != [] {
      FedElsewhere(s, items[..|items| - 1], cache);
    }
  }

  lemma {:induction false} SortedInRange(s: Sys, ids: seq<nat>, rank: Candidate -> seq<int>)
    requires forall i :: i in ids ==> i < |s.reqs|
    ensures forall k :: 0 <= k < |Sorted(rank, Candidates(s, ids))| ==>
      Sorted(rank, Candidates(s, ids))[k].id < |s.reqs|
  {
    ListedCandidates(s, ids);
    SortedMembers(rank, Candidates(s, ids));
    var cs, sorted := Candidates(s, ids), Sorted(rank, Candidates(s, ids));
    forall k | 0 <= k < |sorted| ensures sorted[k].id < |s.reqs| {
      assert sorted[k] in sorted;
      var j :| 0 <= j < |cs| && cs[j] == sorted[k];
    }
  }

  lemma {:induction false} ListedCandidates(s: Sys, ids: seq<nat>)
    ensures forall k :: 0 <= k < |Candidates(s, ids)| ==> Candidates(s, ids)[k].id in ids
  {
    if ids != [] {
      assert ids == ids[..|ids| - 1] + [ids[|ids| - 1]];
      ListedCandidates(s, ids[..|ids| - 1]);
    }
  }

  lemma {:induction false} SortedMembers(rank: Candidate -> seq<int>, cs: seq<Candidate>)
    ensures forall c :: c in Sorted(rank, cs) ==> c in cs
  {
    if cs != [] {
      var n := |cs| - 1;
      assert cs == cs[..n] + [cs[n]];
      SortedMembers(rank, cs[..n]);
      InsertedMembers(rank, cs[n], Sorted(rank, cs[..n]));
    }
  }

  lemma {:induction false} InsertedMembers(rank: Candidate -> seq<int>, c: Candidate, sorted: seq<Candidate>)
    ensures forall x :: x in Insert(rank, c, sorted) ==> x in sorted || x == c
  {
    if sorted != [] && TupleLess(rank(c), rank(sorted[|sorted| - 1])) {
      var n := |sorted| - 1;
      assert sorted == sorted[..n] + [sorted[n]];
      InsertedMembers(rank, c, sorted[..n]);
    }
  }
}
