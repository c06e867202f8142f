/** The iteration-level scheduler as a step machine: what each handler does to the scheduler's fields. */
module Scheduling {
  import opened Lists
  import opened Transformer
  import opened KvCache
  import opened Packing
  import opened Runner

  datatype RequestState = Waiting | Prefill | Decoding | Completed | Cancelled | TimedOut | Failed

  /** A stream event: a token, the tokenless event of an end-of-sequence hit, or the terminator. */
  datatype StreamEvent = StreamEvent(token: Option<Token>, finished: bool)

  const STOP: StreamEvent := StreamEvent(None, true)

  /**
   * A request record. `consumed` is what the client has taken off the queue; `finalized`, `resolved` and
   * `executed` count finalizations, future resolutions and tokens run through the model, so that
   * "exactly once" and total work can be stated.
   */
  datatype Req = Req(
    prompt: seq<Token>,
    maxOut: int,
    eos: Option<Token>,
    arrival: int,
    state: RequestState,
    generated: seq<Token>,
    fed: nat,
    queue: seq<StreamEvent>,
    pending: seq<StreamEvent>,
    stalled: Option<int>,
    consumed: seq<StreamEvent>,
    rejected: bool,
    preemptions: nat,
    recomputed: nat,
    recomputeUntil: nat,
    finalized: nat,
    resolved: nat,
    executed: nat)
  {
    predicate Terminal() {
      state.Completed? || state.Cancelled? || state.TimedOut? || state.Failed?
    }

    function Known(): seq<Token> {
      prompt + generated
    }
  }

  datatype Candidate = Candidate(id: nat, decode: bool, remaining: nat, promptTokens: nat, generatedTokens: nat,
    arrival: int)

  datatype VictimCandidate = VictimCandidate(id: nat, allocatedTokens: nat, fed: nat, generatedTokens: nat,
    arrival: int)

  /** Policies rank by integer tuples, compared as Python compares tuples. */
  datatype Config = Config(
    maxModelLen: Positive,
    maxQueue: int,
    activeLimit: int,
    budget: Positive,
    chunk: Positive,
    queueTimeout: int,
    stallTimeout: int,
    streamCapacity: int,
    graph: bool,
    priority: Candidate -> seq<int>,
    victimPriority: VictimCandidate -> seq<int>)

  /** Production policy: decode before prefill. */
  function DecodeFirst(c: Candidate): seq<int> {
    if c.decode then [0] else [1]
  }

  /** Production policy: reclaim the most resident work first. */
  function LargestSequence(c: VictimCandidate): seq<int> {
    [c.allocatedTokens, c.fed, c.arrival]
  }

  datatype Metrics = Metrics(completed: nat, cancelled: nat, timedOut: nat, failed: nat, rejected: nat,
                             preempted: nat, plans: nat, tokens: nat)

  /** Between iterations, during `execute_batch`, and between its return and the post-processing. */
  datatype Phase = Idle | Planned(items: seq<BatchItem>) | Landed(items: seq<BatchItem>, outcome: Outcome)

  datatype Sys = Sys(cache: Cache, reqs: seq<Req>, waiting: seq<nat>, active: seq<nat>, phase: Phase,
    metrics: Metrics) {
    function Get(i: nat): Req {
      if i < |reqs| then reqs[i] else Req([], 0, None, 0, Failed, [], 0, [], [], None, [], false, 0, 0, 0, 0, 0, 0)
    }

    function Set(i: nat, r: Req): Sys {
      if i < |reqs| then this.(reqs := reqs[i := r]) else this
    }

    function InFlight(): seq<nat> {
      if phase.Idle? then [] else ItemIds(phase.items)
    }
  }

  // -- streams ------------------------------------------------------------------------------

  /** `asyncio.Queue(maxsize=capacity)`: unbounded when the capacity is not positive. */
  predicate QueueFull(capacity: int, n: nat) {
    capacity > 0 && n >= capacity
  }

  function Drained(r: Req, capacity: int, now: int): Req
    decreases |r.pending|
  {
    if r.pending == [] then r.(stalled := None)
    else if QueueFull(capacity, |r.queue|) then
      if r.stalled.None? then r.(stalled := Some(now)) else r
    else Drained(r.(queue := r.queue + [r.pending[0]], pending := r.pending[1..]), capacity, now)
  }

  function Published(r: Req, e: StreamEvent, capacity: int, now: int): Req {
    Drained(r.(pending := r.pending + [e]), capacity, now)
  }

  // -- terminal funnel ------------------------------------------------------------------------

  function Counted(k: Metrics, r: Req): Metrics {
    match r.state
    case Completed => k.(completed := k.completed + 1)
    case Cancelled => k.(cancelled := k.cancelled + 1)
    case TimedOut => k.(timedOut := k.timedOut + 1)
    case Failed => if r.rejected then k.(rejected := k.rejected + 1) else k.(failed := k.failed + 1)
    case _ => k
  }

  /** The request record after `_finalize`: STOP behind everything undelivered, the future resolved. */
  function FinalRecord(r: Req, capacity: int, now: int): Req {
    Published(r, STOP, capacity, now).(finalized := r.finalized + 1, resolved := if r.resolved == 0 then 1
      else r.resolved)
  }

  /** `RaggedRunner.release`: retain the prompt prefix, then give the blocks back. */
  function Teardown(c: Cache, i: nat, prompt: seq<Token>): Cache {
    c.Store(i, prompt).0.Release(i)
  }

  function Finalize(cfg: Config, s: Sys, i: nat, now: int): Sys {
    var r := s.Get(i);
    s.(active := RemoveFirst(s.active, i),
       waiting := RemoveFirst(s.waiting, i),
       cache := Teardown(s.cache, i, r.prompt),
       metrics := Counted(s.metrics, r))
     .Set(i, FinalRecord(r, cfg.streamCapacity, now))
  }

  function Fail(cfg: Config, s: Sys, i: nat, rejected: bool, now: int): Sys {
    var r := s.Get(i);
    if r.Terminal() then s else
    Finalize(cfg, s.Set(i, r.(state := Failed, rejected := rejected)), i, now)
  }

  function Cancel(cfg: Config, s: Sys, i: nat, now: int): Sys {
    var r := s.Get(i);
    if r.Terminal() then s else
    var c := s.Set(i, r.(state := Cancelled));
    if i in s.InFlight() then c else Finalize(cfg, c, i, now)
  }

  // -- submission ------------------------------------------------------------------------------

  datatype Rejection = ContextOverflow | QueueIsFull

  function SubmitCheck(cfg: Config, s: Sys, prompt: seq<Token>, maxOut: int): Option<Rejection> {
    if prompt == [] then Some(ContextOverflow)
    else if |prompt| + maxOut > cfg.maxModelLen then Some(ContextOverflow)
    else if |s.waiting| >= cfg.maxQueue then Some(QueueIsFull)
    else None
  }

  function NewRequest(prompt: seq<Token>, maxOut: int, eos: Option<Token>, now: int): Req {
    Req(prompt, maxOut, eos, now, Waiting, [], 0, [], [], None, [], false, 0, 0, 0, 0, 0, 0)
  }

  function Submit(cfg: Config, s: Sys, prompt: seq<Token>, maxOut: int, eos: Option<Token>, now: int): Sys {
    if SubmitCheck(cfg, s, prompt, maxOut).Some? then s else
    s.(reqs := s.reqs + [NewRequest(prompt, maxOut, eos, now)], waiting := s.waiting + [|s.reqs|])
  }

  // -- one iteration, up to the plan --------------------------------------------------------------

  function TimeOut(cfg: Config, s: Sys, i: nat, now: int): Sys {
    Finalize(cfg, s.(waiting := RemoveFirst(s.waiting, i)).Set(i, s.Get(i).(state := TimedOut)), i, now)
  }

  function ReapWaiting(cfg: Config, s: Sys, ids: seq<nat>, now: int): Sys
    decreases |ids|
  {
    if ids == [] then s else
    var r := s.Get(ids[0]);
    var s' := if !r.Terminal() && now - r.arrival > cfg.queueTimeout then TimeOut(cfg, s, ids[0], now) else s;
    ReapWaiting(cfg, s', ids[1..], now)
  }

  function ReapActive(cfg: Config, s: Sys, ids: seq<nat>, now: int): Sys
    decreases |ids|
  {
    if ids == [] then s else
    var r := s.Get(ids[0]);
    var s' := if r.stalled.Some? && now - r.stalled.value > cfg.stallTimeout then Cancel(cfg, s, ids[0], now) else s;
    ReapActive(cfg, s', ids[1..], now)
  }

  function Reap(cfg: Config, s: Sys, now: int): Sys {
    var s' := ReapWaiting(cfg, s, s.waiting, now);
    ReapActive(cfg, s', s'.active, now)
  }

  function DrainOne(cfg: Config, s: Sys, i: nat, now: int): Sys {
    var r := s.Get(i);
    if r.pending == [] then s else s.Set(i, Drained(r, cfg.streamCapacity, now))
  }

  function DrainStreams(cfg: Config, s: Sys, ids: seq<nat>, now: int): Sys
    decreases |ids|
  {
    if ids == [] then s else DrainStreams(cfg, DrainOne(cfg, s, ids[0], now), ids[1..], now)
  }

  /** The candidate at the head of the queue, already popped, is admitted or refused. */
  function AdmitOne(cfg: Config, s: Sys, i: nat, now: int): Sys {
    var r := s.Get(i);
    if !s.cache.CanReserve(i, 0) then Fail(cfg, s, i, i !in s.cache.tables, now) else
    var (cache, fed) := s.cache.Reserve(i, 0).Restore(i, r.prompt);
    s.(cache := cache, active := s.active + [i]).Set(i, r.(state := Prefill, fed := fed))
  }

  predicate Blocked(s: Sys, i: nat) {
    s.Get(i).preemptions > 0 && s.active != []
  }

  lemma {:induction false} RemoveFirstShrinks(s: seq<nat>, x: nat)
    ensures |RemoveFirst(s, x)| <= |s|
  {
    if s != [] && s[0] != x {
      RemoveFirstShrinks(s[1..], x);
    }
  }

  function AdmitWaiting(cfg: Config, s: Sys, now: int): Sys
    decreases |s.waiting|
  {
    if s.waiting == [] || |s.active| >= cfg.activeLimit || Blocked(s, s.waiting[0]) then s else
    RemoveFirstShrinks(s.waiting[1..], s.waiting[0]);
    AdmitWaiting(cfg, AdmitOne(cfg, s.(waiting := s.waiting[1..]), s.waiting[0], now), now)
  }

  // -- the plan ---------------------------------------------------------------------------------

  /** Python's tuple order. */
  predicate TupleLess(a: seq<int>, b: seq<int>) {
    if b == [] then false
    else if a == [] then true
    else a[0] < b[0] || (a[0] == b[0] && TupleLess(a[1..], b[1..]))
  }

  predicate Eligible(r: Req) {
    !r.Terminal() && r.pending == [] && r.stalled.None?
  }

  function CandidateOf(s: Sys, i: nat): Candidate
    requires s.Get(i).fed < |s.Get(i).Known()|
  {
    var r := s.Get(i);
    var remaining := |r.Known()| - r.fed;
    Candidate(i, r.state.Decoding? && remaining == 1, remaining, |r.prompt|, |r.generated|, r.arrival)
  }

  function Candidates(s: Sys, ids: seq<nat>): seq<Candidate> {
    if ids == [] then [] else
    var n := |ids| - 1;
    var r := s.Get(ids[n]);
    if Eligible(r) && r.fed < |r.Known()| then Candidates(s, ids[..n]) + [CandidateOf(s, ids[n])]
    else Candidates(s, ids[..n])
  }

  /** Stable insertion by rank. */
  function Insert(rank: Candidate -> seq<int>, c: Candidate, sorted: seq<Candidate>): seq<Candidate> {
    if sorted == [] || !TupleLess(rank(c), rank(sorted[|sorted| - 1])) then sorted + [c]
    else Insert(rank, c, sorted[..|sorted| - 1]) + [sorted[|sorted| - 1]]
  }

  function Sorted(rank: Candidate -> seq<int>, cs: seq<Candidate>): seq<Candidate> {
    if cs == [] then [] else Insert(rank, cs[|cs| - 1], Sorted(rank, cs[..|cs| - 1]))
  }

  function Min(a: int, b: int): int {
    if a <= b then a else b
  }

  function ItemFor(cfg: Config, s: Sys, c: Candidate, budget: Positive): BatchItem
    requires s.Get(c.id).fed < |s.Get(c.id).Known()|
  {
    var r := s.Get(c.id);
    var known := r.Known();
    var n := Min(Min(|known| - r.fed, if c.decode then 1 else cfg.chunk), budget);
    BatchItem(c.id, known[r.fed..r.fed + n], r.fed, r.fed + n == |known|, n == 1 && r.fed >= |r.prompt|)
  }

  function Fill(cfg: Config, s: Sys, cs: seq<Candidate>, budget: int): seq<BatchItem> {
    if cs == [] || budget <= 0 then [] else
    var r := s.Get(cs[0].id);
    if r.fed >= |r.Known()| then Fill(cfg, s, cs[1..], budget) else
    var item := ItemFor(cfg, s, cs[0], budget);
    [item] + Fill(cfg, s, cs[1..], budget - |item.tokens|)
  }

  function BuildPlan(cfg: Config, s: Sys): seq<BatchItem> {
    Fill(cfg, s, Sorted(cfg.priority, Candidates(s, s.active)), cfg.budget)
  }

  function Iterate(cfg: Config, s: Sys, now: int): Sys {
    var reaped := Reap(cfg, s, now);
    var drained := DrainStreams(cfg, reaped, reaped.active, now);
    var admitted := AdmitWaiting(cfg, drained, now);
    var items := BuildPlan(cfg, admitted);
    admitted.(phase := if items == [] then Idle else Planned(items))
  }

  // -- execution ------------------------------------------------------------------------------------

  /** `item.request.tokens_fed = item.end_pos`, and the work it stands for. */
  function FedAll(s: Sys, items: seq<BatchItem>): Sys {
    if items == [] then s else
    var item := items[|items| - 1];
    var s' := FedAll(s, items[..|items| - 1]);
    var r := s'.Get(item.id);
    s'.Set(item.id, r.(fed := item.End(), executed := r.executed + |item.tokens|))
  }

  function Land(s: Sys, items: seq<BatchItem>, outcome: Outcome, cache: Cache, ran: bool): Sys {
    var fed := if ran then FedAll(s, items) else s;
    fed.(cache := cache, phase := Landed(items, outcome),
         metrics := fed.metrics.(plans := fed.metrics.plans + 1,
                                 tokens := fed.metrics.tokens + if ran then TokenCount(items) else 0))
  }

  function ExecuteStep(m: Model, cfg: Config, s: Sys, items: seq<BatchItem>): Sys {
    var (outcome, cache) := Execute(m, cfg.graph, cfg.maxModelLen, s.cache, items);
    Land(s, items, outcome, cache, outcome.Ran?)
  }

  /** An exception out of the forward. */
  ghost function ExecuteFails(cfg: Config, s: Sys, items: seq<BatchItem>, pool: seq<Layer>): Sys {
    var (outcome, cache) := ExecuteFailing(cfg.graph, cfg.maxModelLen, s.cache, items, pool);
    Land(s, items, outcome, cache, false)
  }

  /** An exception after the commit, while sampling. */
  function ExecuteFailsLate(m: Model, cfg: Config, s: Sys, items: seq<BatchItem>): Sys {
    var (outcome, cache) := Execute(m, cfg.graph, cfg.maxModelLen, s.cache, items);
    Land(s, items, if outcome.Ran? then Crashed else outcome, cache, outcome.Ran?)
  }

  // -- post-processing ----------------------------------------------------------------------------------

  predicate EosHit(r: Req, token: Token) {
    r.eos == Some(token)
  }

  /** The record after a token has been appended and published, before any finalization. */
  function WithToken(r: Req, token: Token, capacity: int, now: int): Req {
    var g := r.(generated := r.generated + [token]);
    var stop := EosHit(r, token) || |g.generated| >= r.maxOut;
    Published(g, StreamEvent(if EosHit(r, token) then None else Some(token), false), capacity, now)
      .(state := if stop then Completed else Decoding)
  }

  function AfterToken(cfg: Config, s: Sys, i: nat, token: Token, now: int): Sys {
    var r := s.Get(i);
    var s' := s.Set(i, WithToken(r, token, cfg.streamCapacity, now));
    if EosHit(r, token) || |r.generated| + 1 >= r.maxOut then Finalize(cfg, s', i, now) else s'
  }

  function Recomputed(r: Req, item: BatchItem): Req {
    var n := Min(item.End(), r.recomputeUntil) - item.start;
    if n > 0 then r.(recomputed := r.recomputed + n) else r
  }

  function PostRan(cfg: Config, s: Sys, items: seq<BatchItem>, outputs: map<nat, Token>, now: int): Sys
    decreases |items|
  {
    if items == [] then s else PostRan(cfg, PostItem(cfg, s, items[0], outputs, now), items[1..], outputs, now)
  }

  function PostItem(cfg: Config, s: Sys, item: BatchItem, outputs: map<nat, Token>, now: int): Sys {
    var i := item.id;
    if s.Get(i).Terminal() then Finalize(cfg, s, i, now) else
    var s' := s.Set(i, Recomputed(s.Get(i), item));
    if !item.sample then s'.Set(i, s'.Get(i).(state := Prefill))
    else if i !in outputs then Fail(cfg, s', i, false, now)
    else AfterToken(cfg, s', i, outputs[i], now)
  }

  function PostCrashed(cfg: Config, s: Sys, items: seq<BatchItem>, now: int): Sys
    decreases |items|
  {
    if items == [] then s else
    var i := items[0].id;
    var s' := if s.Get(i).Terminal() then Finalize(cfg, s, i, now) else Fail(cfg, s, i, false, now);
    PostCrashed(cfg, s', items[1..], now)
  }

  function Living(s: Sys, ids: seq<nat>): seq<nat> {
    if ids == [] then [] else
    var n := |ids| - 1;
    if s.Get(ids[n]).Terminal() then Living(s, ids[..n]) else Living(s, ids[..n]) + [ids[n]]
  }

  function VictimRank(cfg: Config, s: Sys, i: nat): seq<int> {
    var r := s.Get(i);
    cfg.victimPriority(VictimCandidate(i, s.cache.AllocatedTokens(i), r.fed, |r.generated|, r.arrival))
  }

  /** Python's `max`: the first of the highest-ranked. */
  function Victim(cfg: Config, s: Sys, ids: seq<nat>): (v: nat)
    requires ids != []
    ensures v in ids
  {
    if |ids| == 1 then ids[0] else
    var v := Victim(cfg, s, ids[..|ids| - 1]);
    if TupleLess(VictimRank(cfg, s, v), VictimRank(cfg, s, ids[|ids| - 1])) then ids[|ids| - 1] else v
  }

  /** Evict a running request for recompute. */
  function Evicted(s: Sys, v: nat): Sys {
    var r := s.Get(v);
    s.(active := RemoveFirst(s.active, v), waiting := s.waiting + [v], cache := Teardown(s.cache, v, r.prompt),
       metrics := s.metrics.(preempted := s.metrics.preempted + 1))
     .Set(v, r.(recomputeUntil := r.fed, fed := 0, preemptions := r.preemptions + 1, state := Waiting))
  }

  predicate CanPreempt(s: Sys) {
    |Living(s, s.active)| > 1
  }

  function PostRejected(cfg: Config, s: Sys, items: seq<BatchItem>, now: int): Sys
    decreases |items|
  {
    if items == [] then s else PostRejected(cfg, Fail(cfg, s, items[0].id, true, now), items[1..], now)
  }

  function PostCapacity(cfg: Config, s: Sys, items: seq<BatchItem>, now: int): Sys {
    if CanPreempt(s) then Evicted(s, Victim(cfg, s, Living(s, s.active))) else PostRejected(cfg, s, items, now)
  }

  /** Post-processing runs with nothing marked in flight. */
  function Post(cfg: Config, s: Sys, now: int): Sys
    requires s.phase.Landed?
  {
    var idle := s.(phase := Idle);
    match s.phase.outcome
    case Ran(outputs) => PostRan(cfg, idle, s.phase.items, outputs, now)
    case CapacityError => PostCapacity(cfg, idle, s.phase.items, now)
    case Crashed => PostCrashed(cfg, idle, s.phase.items, now)
  }

  // -- runs -------------------------------------------------------------------------------------------------

  datatype Event =
    | ESubmit(prompt: seq<Token>, maxOut: int, eos: Option<Token>, now: int)
    | ECancel(id: nat, now: int)
    | EConsume(id: nat)
    | EIterate(now: int)
    | EExecute
    | EExecuteFails(pool: seq<Layer>)
    | EExecuteFailsLate
    | EPost(now: int)

  function Consume(s: Sys, i: nat): Sys {
    var r := s.Get(i);
    if r.queue == [] then s else s.Set(i, r.(queue := r.queue[1..], consumed := r.consumed + [r.queue[0]]))
  }

  /** Submissions, cancellations and consumers may come in at any await; the loop's own steps take turns. */
  ghost function Step(m: Model, cfg: Config, s: Sys, e: Event): Sys {
    match e
    case ESubmit(prompt, maxOut, eos, now) => Submit(cfg, s, prompt, maxOut, eos, now)
    case ECancel(i, now) => if i < |s.reqs| then Cancel(cfg, s, i, now) else s
    case EConsume(i) => Consume(s, i)
    case EIterate(now) => if s.phase.Idle? then Iterate(cfg, s, now) else s
    case EExecute => if s.phase.Planned? then ExecuteStep(m, cfg, s, s.phase.items) else s
    case EExecuteFails(pool) => if s.phase.Planned? then ExecuteFails(cfg, s, s.phase.items, pool) else s
    case EExecuteFailsLate => if s.phase.Planned? then ExecuteFailsLate(m, cfg, s, s.phase.items) else s
    case EPost(now) => if s.phase.Landed? then Post(cfg, s, now) else s
  }

  ghost function Run(m: Model, cfg: Config, s: Sys, events: seq<Event>): Sys {
    if events == [] then s else Step(m, cfg, Run(m, cfg, s, events[..|events| - 1]), events[|events| - 1])
  }

  function NoWork(): Metrics {
    Metrics(0, 0, 0, 0, 0, 0, 0, 0)
  }

  /** A started engine: nothing submitted, every block free. */
  ghost predicate Initial(m: Model, s: Sys) {
    && s.reqs == [] && s.waiting == [] && s.active == [] && s.phase.Idle? && s.metrics == NoWork()
    && s.cache.Valid() && s.cache.tables == map[] && s.cache.prefixes == [] && |s.cache.pool| == m.layers
  }
}
