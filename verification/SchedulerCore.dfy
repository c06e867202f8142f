/** The invariant every scheduler step keeps: where requests are, what is cached for them, what they have said. */
module SchedulerCore {
  import opened Lists
  import opened Allocator
  import opened Transformer
  import opened KvCache
  import opened KvCacheContent
  import opened Packing
  import opened Scheduling

  /** What each request has been told so far. */
  ghost function Hist(s: Sys): seq<seq<Token>> {
    seq(|s.reqs|, i requires 0 <= i < |s.reqs| => s.reqs[i].Known())
  }

  ghost predicate CacheOk(m: Model, s: Sys) {
    s.cache.Valid() && Agrees(m, s.cache, Hist(s))
  }

  /** Every unfinished request is in exactly one of the two lists; residency is exactly being active. */
  ghost predicate Places(cfg: Config, s: Sys) {
    && NoDup(s.waiting) && NoDup(s.active) && (forall i :: !(i in s.waiting && i in s.active))
    && (forall i :: i in s.waiting ==> i < |s.reqs| && s.reqs[i].state.Waiting? && s.reqs[i].fed == 0)
    && (forall i :: i in s.active ==> i < |s.reqs| && !s.reqs[i].state.Waiting?)
    && (forall i :: 0 <= i < |s.reqs| ==> (s.reqs[i].finalized == 0 <==> i in s.waiting || i in s.active))
    && (forall i :: 0 <= i < |s.reqs| && s.reqs[i].finalized != 0 ==> s.reqs[i].finalized == 1 && s.reqs[i].Terminal())
    && (forall r :: r in s.cache.tables <==> r in s.active)
    && (s.active == [] || |s.active| <= cfg.activeLimit) && OneReturned(s)
  }

  /** At most one previously preempted request is resident. */
  ghost predicate OneReturned(s: Sys) {
    forall i, j :: i in s.active && j in s.active && s.Get(i).preemptions > 0 && s.Get(j).preemptions > 0 ==> i == j
  }

  /**
   * The configurations for which graph mode always hands out the right rows: the production policy with any
   * limits; or any policy with two or more tokens per chunk, or with limits that leave no batch to be padded.
   */
  ghost predicate GraphSafe(cfg: Config) {
    cfg.graph ==> cfg.priority == DecodeFirst || cfg.chunk >= 2 || cfg.activeLimit <= 2 || cfg.budget <= 2
  }

  /**
   * What a request has generated stops where it should and nowhere before; before its first token a request
   * that was never preempted is waiting or in prefill, and only before it.
   */
  ghost predicate Sound(r: Req) {
    && r.prompt != [] && NoEarlyStop(r.generated, r.eos, r.maxOut)
    && (r.state.Completed? <==> Stops(r.generated, r.eos, r.maxOut))
    && (r.preemptions == 0 && (r.state.Waiting? || r.state.Prefill?) ==> r.generated == [])
  }

  /**
   * In every configuration a record is sound, and never preempted if there is no second place; in a safe one its
   * words are the greedy continuation of its prompt alone.
   */
  ghost predicate Faithful(m: Model, cfg: Config, r: Req) {
    Sound(r) && (cfg.activeLimit <= 1 ==> r.preemptions == 0) &&
      (GraphSafe(cfg) ==> r.generated == Greedy(m, r.prompt, |r.generated|))
  }

  /** The committed length is the count of fed tokens. */
  ghost predicate LengthOk(s: Sys, i: nat) {
    i in s.cache.lengths && s.cache.lengths[i] == s.Get(i).fed <= |s.Get(i).Known()|
  }

  ghost predicate TableExact(s: Sys, i: nat) {
    i in s.cache.tables && |s.cache.tables[i]| == BlocksFor(s.cache.size, s.Get(i).fed)
  }

  /** Something is left to feed, and exactly one token when decoding. */
  ghost predicate Progress(r: Req) {
    r.fed < |r.Known()| && (r.state.Decoding? ==> r.fed + 1 == |r.Known()|)
  }

  ghost predicate Settled(s: Sys, i: nat) {
    TableExact(s, i) && (s.Get(i).Terminal() || Progress(s.Get(i)))
  }

  /** How far the plan's items have come: not run, run with these outputs, or failed. */
  datatype Mode = Unfed | Fed(outputs: map<nat, Token>) | Broken

  ghost predicate ItemMatches(s: Sys, item: BatchItem) {
    var known := s.Get(item.id).Known();
    && item.tokens != [] && item.End() <= |known| && item.tokens == known[item.start..item.End()]
    && (item.sample <==> item.End() == |known|) && (item.isDecode ==> |item.tokens| == 1)
  }

  ghost predicate ItemInFlight(m: Model, cfg: Config, s: Sys, item: BatchItem, mode: Mode) {
    && item.id in s.active
    && match mode
       case Unfed => ItemMatches(s, item) && item.start == s.Get(item.id).fed
       case Fed(outputs) =>
         && ItemMatches(s, item) && item.End() == s.Get(item.id).fed && TableExact(s, item.id)
         && (item.sample ==> item.id in outputs && s.Get(item.id).Known() != [])
         && (item.sample && GraphSafe(cfg) ==> outputs[item.id] == Next(m, s.Get(item.id).Known()))
         && (s.Get(item.id).state.Decoding? ==> item.sample)
       case Broken => true
  }

  ghost predicate Flight(m: Model, cfg: Config, s: Sys, items: seq<BatchItem>, mode: Mode) {
    NoDup(ItemIds(items)) && forall k :: 0 <= k < |items| ==> ItemInFlight(m, cfg, s, items[k], mode)
  }

  ghost predicate Residents(s: Sys, items: seq<BatchItem>, mode: Mode) {
    forall i :: i in s.active ==> LengthOk(s, i) && (i !in ItemIds(items) || mode.Unfed? ==> Settled(s, i))
  }

  ghost predicate AllFaithful(m: Model, cfg: Config, s: Sys) {
    forall i :: 0 <= i < |s.reqs| ==> Faithful(m, cfg, s.reqs[i])
  }

  ghost predicate Core(m: Model, cfg: Config, s: Sys, items: seq<BatchItem>, mode: Mode) {
    CacheOk(m, s) && Places(cfg, s) && AllFaithful(m, cfg, s) && Residents(s, items, mode) &&
      Flight(m, cfg, s, items, mode)
  }

  // -- replacing one record ---------------------------------------------------------------

  /** The record fields the invariant looks at. */
  ghost predicate SameCore(r: Req, r': Req) {
    r'.prompt == r.prompt && r'.generated == r.generated && r'.eos == r.eos && r'.maxOut == r.maxOut &&
    r'.state == r.state && r'.fed == r.fed && r'.finalized == r.finalized && r'.preemptions == r.preemptions
  }

  lemma {:induction false} HistSame(s: Sys, s': Sys)
    requires |s'.reqs| == |s.reqs| && forall i :: 0 <= i < |s.reqs| ==> s'.reqs[i].Known() == s.reqs[i].Known()
    ensures Hist(s') == Hist(s)
  {
  }

  lemma {:induction false} StillOneReturned(s: Sys, s': Sys)
    requires OneReturned(s)
    requires forall j :: j in s'.active && s'.Get(j).preemptions > 0 ==> j in s.active && s.Get(j).preemptions > 0
    ensures OneReturned(s')
  {
  }

  lemma {:induction false} ReplacedPlaces(cfg: Config, s: Sys, i: nat, r': Req)
    requires Places(cfg, s) && i < |s.reqs|
    requires r'.finalized == s.reqs[i].finalized && r'.fed == s.reqs[i].fed
    requires r'.state.Waiting? <==> s.reqs[i].state.Waiting?
    requires s.reqs[i].Terminal() ==> r'.Terminal()
    requires r'.preemptions == s.reqs[i].preemptions
    ensures Places(cfg, s.Set(i, r'))
  {
    hide OneReturned;
    StillOneReturned(s, s.Set(i, r'));
  }

  /** A record with the same words and length, no less settled than before. */
  lemma {:induction false} ReplacedResidents(s: Sys, i: nat, r': Req, items: seq<BatchItem>, mode: Mode)
    requires Residents(s, items, mode) && i < |s.reqs|
    requires r'.Known() == s.reqs[i].Known() && r'.fed == s.reqs[i].fed
    requires r'.Terminal() || (r'.state == s.reqs[i].state)
    ensures Residents(s.Set(i, r'), items, mode)
  {
    var s' := s.Set(i, r');
    forall j | j in s'.active ensures LengthOk(s', j) && (j !in ItemIds(items) || mode.Unfed? ==> Settled(s', j)) {
      assert LengthOk(s, j) && (j !in ItemIds(items) || mode.Unfed? ==> Settled(s, j));
    }
  }

  lemma {:induction false} ReplacedFlight(m: Model, cfg: Config, s: Sys, i: nat, r': Req, items: seq<BatchItem>,
                                          mode: Mode)
    requires Flight(m, cfg, s, items, mode) && i < |s.reqs|
    requires r'.Known() == s.reqs[i].Known() && r'.fed == s.reqs[i].fed
    requires r'.state.Decoding? ==> s.reqs[i].state.Decoding?
    ensures Flight(m, cfg, s.Set(i, r'), items, mode)
  {
    forall k | 0 <= k < |items| ensures ItemInFlight(m, cfg, s.Set(i, r'), items[k], mode) {
      assert ItemInFlight(m, cfg, s, items[k], mode);
    }
  }

  lemma {:induction false} SetSameCore(m: Model, cfg: Config, s: Sys, i: nat, r': Req, items: seq<BatchItem>,
                                       mode: Mode)
    requires Core(m, cfg, s, items, mode) && SameCore(s.Get(i), r')
    ensures Core(m, cfg, s.Set(i, r'), items, mode)
  {
    hide Cache.Valid, Agrees, NoDup, Places, Residents, Flight;
    if i < |s.reqs| {
      PlacesOf(m, cfg, s, items, mode);
      ReplacedPlaces(cfg, s, i, r');
      ReplacedResidents(s, i, r', items, mode);
      ReplacedFlight(m, cfg, s, i, r', items, mode);
      HistSame(s, s.Set(i, r'));
      assert Faithful(m, cfg, s.reqs[i]);
    }
  }

  lemma {:induction false} PlacesOf(m: Model, cfg: Config, s: Sys, items: seq<BatchItem>, mode: Mode)
    requires Core(m, cfg, s, items, mode)
    ensures Places(cfg, s)
  {
  }

  /** Dropping the plan: its unfed items are ordinary residents. */
  lemma {:induction false} DropUnfed(m: Model, cfg: Config, s: Sys, items: seq<BatchItem>, mode: Mode)
    requires Core(m, cfg, s, items, Unfed)
    ensures Core(m, cfg, s, [], mode)
  {
  }

  lemma {:induction false} EmptyFlight(m: Model, cfg: Config, s: Sys, mode: Mode, mode': Mode)
    requires Core(m, cfg, s, [], mode)
    ensures Core(m, cfg, s, [], mode')
  {
  }

  /** A change to one request's record leaves the other items and residents as they were. */
  lemma {:induction false} OthersInFlight(m: Model, cfg: Config, s: Sys, s': Sys, i: nat, items: seq<BatchItem>,
                                          mode: Mode)
    requires Flight(m, cfg, s, items, mode) && i !in ItemIds(items)
    requires s'.cache.size == s.cache.size
    requires forall j :: j in s.active && j != i ==> j in s'.active && s'.Get(j) == s.Get(j)
    requires forall j :: j in s.active && j != i && j in s.cache.tables ==>
      j in s'.cache.tables && s'.cache.tables[j] == s.cache.tables[j]
    ensures Flight(m, cfg, s', items, mode)
  {
    forall k | 0 <= k < |items| ensures ItemInFlight(m, cfg, s', items[k], mode) {
      assert ItemInFlight(m, cfg, s, items[k], mode);
      assert ItemIds(items)[k] == items[k].id;
    }
  }

  lemma {:induction false} HistGrows(s: Sys, s': Sys)
    requires |s'.reqs| >= |s.reqs| && forall i :: 0 <= i < |s.reqs| ==> s.reqs[i].Known() <= s'.reqs[i].Known()
    ensures HistoriesGrow(Hist(s), Hist(s'))
  {
  }

  /** Removing a request's item from the front of the remaining plan. */
  lemma {:induction false} TailFlight(m: Model, cfg: Config, s: Sys, items: seq<BatchItem>, mode: Mode)
    requires Flight(m, cfg, s, items, mode) && items != []
    ensures Flight(m, cfg, s, items[1..], mode) && items[0].id !in ItemIds(items[1..])
    ensures forall i :: i in ItemIds(items) <==> i == items[0].id || i in ItemIds(items[1..])
  {
    assert ItemIds(items) == [items[0].id] + ItemIds(items[1..]);
    NoDupConcat([items[0].id], ItemIds(items[1..]));
    forall k | 0 <= k < |items[1..]| ensures ItemInFlight(m, cfg, s, items[1..][k], mode) {
      assert ItemInFlight(m, cfg, s, items[k + 1], mode);
    }
  }

  // -- teardown --------------------------------------------------------------------------------

  /** What removing request `i` from both lists and from the cache leaves. */
  ghost predicate Removed(s: Sys, s': Sys, i: nat) {
    && s'.active == RemoveFirst(s.active, i) && s'.waiting == RemoveFirst(s.waiting, i)
    && s'.cache.size == s.cache.size
    && s'.cache.tables == s.cache.tables - {i} && s'.cache.lengths == s.cache.lengths - {i}
    && |s'.reqs| == |s.reqs| && forall j :: 0 <= j < |s.reqs| && j != i ==> s'.reqs[j] == s.reqs[j]
  }

  lemma {:induction false} RemovedPlaces(cfg: Config, s: Sys, s': Sys, i: nat)
    requires Places(cfg, s) && Removed(s, s', i) && i < |s.reqs|
    requires s'.reqs[i].finalized == 1 && s'.reqs[i].Terminal()
    ensures Places(cfg, s')
  {
    hide OneReturned, NoDup, RemoveFirst;
    RemoveFirstFacts(s.active, i);
    RemoveFirstFacts(s.waiting, i);
    StillOneReturned(s, s');
  }

  lemma {:induction false} RemovedOthers(m: Model, cfg: Config, s: Sys, s': Sys, i: nat, items: seq<BatchItem>,
                                         items': seq<BatchItem>, mode: Mode)
    requires NoDup(s.active) && Removed(s, s', i) && (forall j :: j in s.active ==> j < |s.reqs|)
    requires Residents(s, items, mode) && Flight(m, cfg, s, items', mode) && i !in ItemIds(items')
    requires forall j :: j in ItemIds(items) ==> j == i || j in ItemIds(items')
    ensures Residents(s', items', mode) && Flight(m, cfg, s', items', mode)
  {
    RemoveFirstFacts(s.active, i);
    OthersInFlight(m, cfg, s, s', i, items', mode);
    forall j | j in s'.active ensures LengthOk(s', j) && (j !in ItemIds(items') || mode.Unfed? ==> Settled(s', j)) {
      assert LengthOk(s, j);
    }
  }

  /** `_finalize` on a request that has become terminal with record `r`. */
  lemma {:induction false} FinalizeCore(m: Model, cfg: Config, s: Sys, i: nat, r: Req, items: seq<BatchItem>,
                                        items': seq<BatchItem>, mode: Mode, now: int)
    requires Core(m, cfg, s, items, mode) && (i in s.waiting || i in s.active)
    requires r.Terminal() && r.finalized == 0 && Faithful(m, cfg, r)
    requires r.prompt == s.Get(i).prompt && s.Get(i).Known() <= r.Known()
    requires Flight(m, cfg, s, items', mode) && i !in ItemIds(items')
    requires forall j :: j in ItemIds(items) ==> j == i || j in ItemIds(items')
    ensures Core(m, cfg, Finalize(cfg, s.Set(i, r), i, now), items', mode)
  {
    hide Cache.Valid, FinalRecord, OneReturned, Agrees, Residents, Flight;
    var t, s' := s.Set(i, r), Finalize(cfg, s.Set(i, r), i, now);
    HistGrows(s, t);
    AgreesMoreTokens(m, s.cache, Hist(s), Hist(t));
    TeardownFacts(m, s.cache, i, r.prompt, Hist(t));
    FinalRecordFacts(r, cfg.streamCapacity, now);
    HistSame(t, s');
    assert Removed(s, s', i);
    RemovedPlaces(cfg, s, s', i);
    RemovedOthers(m, cfg, s, s', i, items, items', mode);
  }

  lemma {:induction false} DrainedFacts(r: Req, capacity: int, now: int)
    ensures SameCore(r, Drained(r, capacity, now))
    ensures Drained(r, capacity, now).resolved == r.resolved
    decreases |r.pending|
  {
    if r.pending == [] || QueueFull(capacity, |r.queue|) {
    } else {
      DrainedFacts(r.(queue := r.queue + [r.pending[0]], pending := r.pending[1..]), capacity, now);
    }
  }

  lemma {:induction false} FinalRecordFacts(r: Req, capacity: int, now: int)
    ensures SameCore(r.(finalized := r.finalized + 1), FinalRecord(r, capacity, now))
  {
    DrainedFacts(r.(pending := r.pending + [STOP]), capacity, now);
  }

  /** A request fails, is cancelled or times out: same words, terminal state. */
  lemma {:induction false} EndCore(m: Model, cfg: Config, s: Sys, i: nat, r: Req, items: seq<BatchItem>,
                                   items': seq<BatchItem>, mode: Mode, now: int)
    requires Core(m, cfg, s, items, mode) && (i in s.waiting || i in s.active)
    requires r.Terminal() && (r.state.Completed? <==> s.Get(i).state.Completed?)
    requires SameCore(s.Get(i), r.(state := s.Get(i).state))
    requires Flight(m, cfg, s, items', mode) && i !in ItemIds(items')
    requires forall j :: j in ItemIds(items) ==> j == i || j in ItemIds(items')
    ensures Core(m, cfg, Finalize(cfg, s.Set(i, r), i, now), items', mode)
  {
    assert Faithful(m, cfg, s.reqs[i]);
    FinalizeCore(m, cfg, s, i, r, items, items', mode, now);
  }

  lemma {:induction false} SetSelf(s: Sys, i: nat)
    ensures s.Set(i, s.Get(i)) == s
  {
    if i < |s.reqs| {
      assert s.reqs[i := s.reqs[i]] == s.reqs;
    }
  }

  // -- submissions, cancellations, timeouts --------------------------------------------------------

  lemma {:induction false} NoStopYet(m: Model, cfg: Config, r: Req)
    requires r.generated == [] && r.prompt != [] && !r.state.Completed? && r.preemptions == 0
    ensures Faithful(m, cfg, r)
  {
  }

  lemma {:induction false} SubmitCore(m: Model, cfg: Config, s: Sys, prompt: seq<Token>, maxOut: int,
                                      eos: Option<Token>, now: int, items: seq<BatchItem>, mode: Mode)
    requires Core(m, cfg, s, items, mode)
    ensures Core(m, cfg, Submit(cfg, s, prompt, maxOut, eos, now), items, mode)
  {
    hide Cache.Valid, Agrees, Places, Residents, Flight;
    if SubmitCheck(cfg, s, prompt, maxOut).None? {
      var s' := Submit(cfg, s, prompt, maxOut, eos, now);
      HistGrows(s, s');
      AgreesMoreTokens(m, s.cache, Hist(s), Hist(s'));
      NoStopYet(m, cfg, NewRequest(prompt, maxOut, eos, now));
      JoinedPlaces(cfg, s, NewRequest(prompt, maxOut, eos, now));
      SubmitOthers(m, cfg, s, s', items, mode);
    }
  }

  lemma {:induction false} JoinedPlaces(cfg: Config, s: Sys, r: Req)
    requires Places(cfg, s) && r.state.Waiting? && r.fed == 0 && r.finalized == 0
    ensures Places(cfg, s.(reqs := s.reqs + [r], waiting := s.waiting + [|s.reqs|]))
  {
    hide OneReturned;
    NoDupConcat(s.waiting, [|s.reqs|]);
    StillOneReturned(s, s.(reqs := s.reqs + [r], waiting := s.waiting + [|s.reqs|]));
  }

  lemma {:induction false} SubmitOthers(m: Model, cfg: Config, s: Sys, s': Sys, items: seq<BatchItem>, mode: Mode)
    requires Core(m, cfg, s, items, mode) && |s.reqs| <= |s'.reqs| && s'.reqs[..|s.reqs|] == s.reqs
    requires s'.cache == s.cache && s'.active == s.active
    ensures Residents(s', items, mode) && Flight(m, cfg, s', items, mode)
  {
    forall j | j in s.active ensures s'.Get(j) == s.Get(j) {
      assert s'.reqs[..|s.reqs|][j] == s'.reqs[j];
    }
    forall k | 0 <= k < |items| ensures ItemInFlight(m, cfg, s', items[k], mode) {
      assert ItemInFlight(m, cfg, s, items[k], mode);
    }
    forall j | j in s'.active ensures LengthOk(s', j) && (j !in ItemIds(items) || mode.Unfed? ==> Settled(s', j)) {
      assert LengthOk(s, j);
    }
  }

  /** Cancelling a request whose item is in flight only marks it. */
  lemma {:induction false} MarkCore(m: Model, cfg: Config, s: Sys, i: nat, items: seq<BatchItem>, mode: Mode)
    requires Core(m, cfg, s, items, mode) && i in s.active && !s.Get(i).Terminal()
    ensures Core(m, cfg, s.Set(i, s.Get(i).(state := Cancelled)), items, mode)
  {
    hide Cache.Valid;
    var r' := s.Get(i).(state := Cancelled);
    ReplacedPlaces(cfg, s, i, r');
    ReplacedResidents(s, i, r', items, mode);
    ReplacedFlight(m, cfg, s, i, r', items, mode);
    HistSame(s, s.Set(i, r'));
    assert Faithful(m, cfg, s.reqs[i]);
  }

  lemma {:induction false} NotDone(cfg: Config, s: Sys, i: nat)
    requires Places(cfg, s) && i < |s.reqs| && !s.Get(i).Terminal()
    ensures i in s.waiting || i in s.active
  {
  }

  lemma {:induction false} CancelCore(m: Model, cfg: Config, s: Sys, i: nat, now: int, items: seq<BatchItem>,
                                      mode: Mode)
    requires Core(m, cfg, s, items, mode) && i < |s.reqs| && s.InFlight() == ItemIds(items)
    ensures Core(m, cfg, Cancel(cfg, s, i, now), items, mode)
  {
    if !s.Get(i).Terminal() {
      NotDone(cfg, s, i);
      if i in ItemIds(items) {
        var k :| 0 <= k < |items| && items[k].id == i;
        assert ItemInFlight(m, cfg, s, items[k], mode);
        MarkCore(m, cfg, s, i, items, mode);
      } else {
        EndCore(m, cfg, s, i, s.Get(i).(state := Cancelled), items, items, mode, now);
      }
    }
  }

  lemma {:induction false} FailCore(m: Model, cfg: Config, s: Sys, i: nat, rejected: bool, now: int,
                 items: seq<BatchItem>, items': seq<BatchItem>, mode: Mode)
    requires Core(m, cfg, s, items, mode) && i < |s.reqs| && !s.Get(i).Terminal()
    requires Flight(m, cfg, s, items', mode) && i !in ItemIds(items')
    requires forall j :: j in ItemIds(items) ==> j == i || j in ItemIds(items')
    ensures Core(m, cfg, Fail(cfg, s, i, rejected, now), items', mode)
  {
    NotDone(cfg, s, i);
    EndCore(m, cfg, s, i, s.Get(i).(state := Failed, rejected := rejected), items, items', mode, now);
  }

  // -- reap and drain ---------------------------------------------------------------------------------

  lemma {:induction false} TimeOutCore(m: Model, cfg: Config, s: Sys, i: nat, now: int)
    requires Core(m, cfg, s, [], Unfed) && i in s.waiting
    ensures Core(m, cfg, TimeOut(cfg, s, i, now), [], Unfed)
  {
    RemoveFirstFacts(s.waiting, i);
    RemoveFirstAbsent(RemoveFirst(s.waiting, i), i);
    var r := s.Get(i).(state := TimedOut);
    assert TimeOut(cfg, s, i, now) == Finalize(cfg, s.Set(i, r), i, now);
    EndCore(m, cfg, s, i, r, [], [], Unfed, now);
  }

  lemma {:induction false} TimeOutWaiting(cfg: Config, s: Sys, i: nat, now: int)
    requires NoDup(s.waiting)
    ensures TimeOut(cfg, s, i, now).phase == s.phase
    ensures forall j :: j in TimeOut(cfg, s, i, now).waiting <==> j in s.waiting && j != i
  {
    RemoveFirstFacts(s.waiting, i);
    RemoveFirstAbsent(RemoveFirst(s.waiting, i), i);
  }

  lemma {:induction false} ReapWaitingCore(m: Model, cfg: Config, s: Sys, ids: seq<nat>, now: int)
    requires Core(m, cfg, s, [], Unfed) && NoDup(ids) && forall i :: i in ids ==> i in s.waiting
    ensures Core(m, cfg, ReapWaiting(cfg, s, ids, now), [], Unfed)
    ensures ReapWaiting(cfg, s, ids, now).phase == s.phase
    decreases |ids|
  {
    hide CacheOk, AllFaithful;
    if ids != [] {
      var i := ids[0];
      assert ids == [i] + ids[1..];
      if !s.Get(i).Terminal() && now - s.Get(i).arrival > cfg.queueTimeout {
        hide TimeOut;
        TimeOutCore(m, cfg, s, i, now);
        TimeOutWaiting(cfg, s, i, now);
        ReapWaitingCore(m, cfg, TimeOut(cfg, s, i, now), ids[1..], now);
      } else {
        ReapWaitingCore(m, cfg, s, ids[1..], now);
      }
    }
  }

  lemma {:induction false} CancelShape(cfg: Config, s: Sys, i: nat, now: int)
    ensures var s' := Cancel(cfg, s, i, now); |s'.reqs| == |s.reqs| && s'.phase == s.phase
  {
  }

  lemma {:induction false} ReapActiveCore(m: Model, cfg: Config, s: Sys, ids: seq<nat>, now: int)
    requires Core(m, cfg, s, [], Unfed) && s.phase.Idle? && forall i :: i in ids ==> i < |s.reqs|
    ensures Core(m, cfg, ReapActive(cfg, s, ids, now), [], Unfed)
    ensures ReapActive(cfg, s, ids, now).phase == s.phase
    decreases |ids|
  {
    if ids != [] {
      var i, r := ids[0], s.Get(ids[0]);
      assert forall j :: j in ids[1..] ==> j in ids;
      if r.stalled.Some? && now - r.stalled.value > cfg.stallTimeout {
        CancelCore(m, cfg, s, i, now, [], Unfed);
        CancelShape(cfg, s, i, now);
        ReapActiveCore(m, cfg, Cancel(cfg, s, i, now), ids[1..], now);
      } else {
        ReapActiveCore(m, cfg, s, ids[1..], now);
      }
    }
  }

  lemma {:induction false} DrainOneCore(m: Model, cfg: Config, s: Sys, i: nat, now: int)
    requires Core(m, cfg, s, [], Unfed)
    ensures Core(m, cfg, DrainOne(cfg, s, i, now), [], Unfed)
  {
    DrainedFacts(s.Get(i), cfg.streamCapacity, now);
    SetSameCore(m, cfg, s, i, Drained(s.Get(i), cfg.streamCapacity, now), [], Unfed);
  }

  lemma {:induction false} DrainStreamsCore(m: Model, cfg: Config, s: Sys, ids: seq<nat>, now: int)
    requires Core(m, cfg, s, [], Unfed)
    ensures Core(m, cfg, DrainStreams(cfg, s, ids, now), [], Unfed)
    ensures DrainStreams(cfg, s, ids, now).phase == s.phase
    decreases |ids|
  {
    if ids != [] {
      DrainOneCore(m, cfg, s, ids[0], now);
      DrainStreamsCore(m, cfg, DrainOne(cfg, s, ids[0], now), ids[1..], now);
    }
  }

  // -- admission ------------------------------------------------------------------------------------------

  lemma {:induction false} AdmittedPlaces(cfg: Config, s: Sys, s': Sys, i: nat)
    requires Places(cfg, s) && s.waiting != [] && i == s.waiting[0] < |s.reqs| && |s.active| < cfg.activeLimit
    requires s'.waiting == s.waiting[1..] && s'.active == s.active + [i] && |s'.reqs| == |s.reqs|
    requires forall j :: 0 <= j < |s.reqs| && j != i ==> s'.reqs[j] == s.reqs[j]
    requires s'.reqs[i].finalized == s.reqs[i].finalized && s'.reqs[i].state.Prefill?
    requires s'.reqs[i].preemptions == s.reqs[i].preemptions && !Blocked(s, i)
    requires forall r :: r in s'.cache.tables <==> r in s.cache.tables || r == i
    ensures Places(cfg, s')
  {
    assert OneReturned(s') by {
      if s.active == [] {
        assert forall j :: j in s'.active ==> j == i;
      } else {
        StillOneReturned(s, s');
      }
    }
    hide OneReturned;
    assert s.waiting == [i] + s'.waiting;
    NoDupConcat([i], s'.waiting);
    NoDupConcat(s.active, [i]);
    assert forall j :: j in s'.waiting ==> j in s.waiting && j != i;
  }

  /** Head of the queue to resident; the capacity check of admission cannot fail. */
  lemma {:induction false} AdmitOneCore(m: Model, cfg: Config, s: Sys, now: int)
    requires Core(m, cfg, s, [], Unfed) && s.waiting != [] && |s.active| < cfg.activeLimit && !Blocked(s, s.waiting[0])
    ensures var i, t := s.waiting[0], s.(waiting := s.waiting[1..]);
      && t.cache.CanReserve(i, 0)
      && Core(m, cfg, AdmitOne(cfg, t, i, now), [], Unfed)
      && AdmitOne(cfg, t, i, now).phase == s.phase
  {
    var i := s.waiting[0];
    assert i in s.waiting && Faithful(m, cfg, s.reqs[i]);
    AdmitFacts(m, s.cache, i, s.reqs[i].prompt, Hist(s));
    var (cache, fed) := s.cache.Reserve(i, 0).Restore(i, s.reqs[i].prompt);
    AdmittedCore(m, cfg, s, cache, fed);
  }

  lemma {:induction false} AdmittedCore(m: Model, cfg: Config, s: Sys, cache: Cache, fed: nat)
    requires Core(m, cfg, s, [], Unfed) && s.waiting != [] && |s.active| < cfg.activeLimit && !Blocked(s, s.waiting[0])
    requires Restored(m, s.cache, s.waiting[0], fed, cache, Hist(s)) && fed < |s.Get(s.waiting[0]).prompt|
    ensures var i := s.waiting[0];
      Core(m, cfg, s.(waiting := s.waiting[1..], cache := cache, active := s.active + [i])
                    .Set(i, s.Get(i).(state := Prefill, fed := fed)), [], Unfed)
  {
    var i := s.waiting[0];
    var s' := s.(waiting := s.waiting[1..], cache := cache, active := s.active + [i])
               .Set(i, s.Get(i).(state := Prefill, fed := fed));
    hide Cache.Valid, Agrees, Residents, OneReturned, NoDup, Flight, Sound;
    assert i in s.waiting;
    HistSame(s, s');
    AdmittedPlaces(cfg, s, s', i);
    AdmittedOthers(m, cfg, s, s', i, fed);
    assert Faithful(m, cfg, s.reqs[i]);
  }

  lemma {:induction false} AdmittedOthers(m: Model, cfg: Config, s: Sys, s': Sys, i: nat, fed: nat)
    requires Core(m, cfg, s, [], Unfed) && i in s.waiting
    requires s'.active == s.active + [i] && |s'.reqs| == |s.reqs|
    requires forall j :: 0 <= j < |s.reqs| && j != i ==> s'.reqs[j] == s.reqs[j]
    requires s'.reqs[i].prompt == s.reqs[i].prompt && s'.reqs[i].state.Prefill?
    requires s'.reqs[i].fed == fed < |s.reqs[i].prompt|
    requires s'.cache.size == s.cache.size && s'.cache.lengths == s.cache.lengths[i := fed]
    requires i in s'.cache.tables && s'.cache.tables == s.cache.tables[i := s'.cache.tables[i]]
    requires |s'.cache.tables[i]| == BlocksFor(s.cache.size, fed)
    ensures Residents(s', [], Unfed) && Flight(m, cfg, s', [], Unfed)
  {
    hide Cache.Valid, Agrees, AllFaithful, OneReturned;
    forall j | j in s'.active ensures LengthOk(s', j) && Settled(s', j) {
      if j != i {
        assert LengthOk(s, j) && Settled(s, j);
      }
    }
  }

  lemma {:induction false} AdmitWaitingCore(m: Model, cfg: Config, s: Sys, now: int)
    requires Core(m, cfg, s, [], Unfed)
    ensures Core(m, cfg, AdmitWaiting(cfg, s, now), [], Unfed)
    ensures AdmitWaiting(cfg, s, now).phase == s.phase
    decreases |s.waiting|
  {
    if s.waiting == [] || |s.active| >= cfg.activeLimit || Blocked(s, s.waiting[0]) {
    } else {
      AdmitOneCore(m, cfg, s, now);
      RemoveFirstShrinks(s.waiting[1..], s.waiting[0]);
      AdmitWaitingCore(m, cfg, AdmitOne(cfg, s.(waiting := s.waiting[1..]), s.waiting[0], now), now);
    }
  }

  // -- preemption ---------------------------------------------------------------------------------------------

  lemma {:induction false} RequeuedLists(waiting: seq<nat>, active: seq<nat>, v: nat)
    requires NoDup(waiting) && NoDup(active) && v in active && v !in waiting
    ensures NoDup(waiting + [v]) && NoDup(RemoveFirst(active, v)) && |RemoveFirst(active, v)| < |active|
    ensures forall j :: j in RemoveFirst(active, v) <==> j in active && j != v
    ensures forall j :: j in waiting + [v] <==> j in waiting || j == v
  {
    RemoveFirstFacts(active, v);
    NoDupConcat(waiting, [v]);
  }

  lemma {:induction false} LivingFacts(s: Sys, ids: seq<nat>)
    ensures |Living(s, ids)| <= |ids|
    ensures forall i :: i in Living(s, ids) <==> i in ids && !s.Get(i).Terminal()
  {
    if ids != [] {
      assert ids == ids[..|ids| - 1] + [ids[|ids| - 1]];
      LivingFacts(s, ids[..|ids| - 1]);
    }
  }

  lemma {:induction false} SecondPlace(cfg: Config, s: Sys)
    requires Places(cfg, s) && CanPreempt(s)
    ensures cfg.activeLimit >= 2
  {
    LivingFacts(s, s.active);
  }

  lemma {:induction false} EvictedPlaces(cfg: Config, s: Sys, s': Sys, v: nat)
    requires Places(cfg, s) && v in s.active
    requires s'.active == RemoveFirst(s.active, v) && s'.waiting == s.waiting + [v] && |s'.reqs| == |s.reqs|
    requires forall j :: 0 <= j < |s.reqs| && j != v ==> s'.reqs[j] == s.reqs[j]
    requires s'.reqs[v].finalized == s.reqs[v].finalized && s'.reqs[v].state.Waiting? && s'.reqs[v].fed == 0
    requires !s.reqs[v].Terminal()
    requires forall r :: r in s'.cache.tables <==> r in s.cache.tables && r != v
    ensures Places(cfg, s')
  {
    hide OneReturned, NoDup, RemoveFirst;
    RequeuedLists(s.waiting, s.active, v);
    StillOneReturned(s, s');
  }

  lemma {:induction false} EvictedCore(m: Model, cfg: Config, s: Sys, v: nat)
    requires Core(m, cfg, s, [], Unfed) && v in s.active && !s.Get(v).Terminal() && CanPreempt(s)
    ensures Core(m, cfg, Evicted(s, v), [], Unfed)
  {
    hide Cache.Valid, Agrees, Cache.Store, Residents, OneReturned, CanPreempt;
    SecondPlace(cfg, s);
    var s' := Evicted(s, v);
    assert Faithful(m, cfg, s.reqs[v]);
    TeardownFacts(m, s.cache, v, s.reqs[v].prompt, Hist(s));
    HistSame(s, s');
    EvictedPlaces(cfg, s, s', v);
    RemoveFirstAbsent(s.waiting, v);
    RemovedOthers(m, cfg, s, s'.(waiting := s.waiting), v, [], [], Unfed);
    SameActive(s'.(waiting := s.waiting), s');
  }

  lemma {:induction false} SameActive(s: Sys, s': Sys)
    requires s'.(waiting := s.waiting) == s && Residents(s, [], Unfed)
    ensures Residents(s', [], Unfed)
  {
    forall j | j in s'.active ensures LengthOk(s', j) && Settled(s', j) {
      assert LengthOk(s, j) && Settled(s, j);
    }
  }

  // -- post-processing ------------------------------------------------------------------------------------------

  lemma {:induction false} PublishedFacts(r: Req, e: StreamEvent, capacity: int, now: int)
    ensures SameCore(r, Published(r, e, capacity, now))
  {
    DrainedFacts(r.(pending := r.pending + [e]), capacity, now);
  }

  /** Appending the greedy next token keeps a request faithful. */
  lemma {:induction false} WithTokenFaithful(m: Model, cfg: Config, r: Req, token: Token, capacity: int, now: int)
    requires Faithful(m, cfg, r) && !r.Terminal() && (GraphSafe(cfg) ==> token == Next(m, r.Known()))
    ensures Faithful(m, cfg, WithToken(r, token, capacity, now))
    ensures WithToken(r, token, capacity, now).generated == r.generated + [token]
    ensures WithToken(r, token, capacity, now).state.Completed? <==>
            EosHit(r, token) || |r.generated| + 1 >= r.maxOut
  {
    var g := r.(generated := r.generated + [token]);
    PublishedFacts(g, StreamEvent(if EosHit(r, token) then None else Some(token), false), capacity, now);
    assert forall k :: 0 < k < |g.generated| ==> g.generated[..k] == r.generated[..k];
    assert r.generated[..|r.generated|] == r.generated;
    GreedyPrefix(m, r.prompt, |r.generated|, |r.generated| + 1);
    if GraphSafe(cfg) {
      assert Greedy(m, r.prompt, |r.generated| + 1) == r.generated + [Next(m, r.prompt + r.generated)];
    }
  }

  /** A decoding step on a request that goes on. */
  lemma {:induction false} ContinueCore(m: Model, cfg: Config, s: Sys, r': Req, items: seq<BatchItem>, mode: Mode)
    requires items != [] && Core(m, cfg, s, items, mode) && mode.Fed?
    requires !s.Get(items[0].id).Terminal() && Faithful(m, cfg, r') && !r'.Terminal() && !r'.state.Waiting?
    requires r'.prompt == s.Get(items[0].id).prompt && r'.fed == s.Get(items[0].id).fed && r'.finalized == 0
    requires r'.preemptions == s.Get(items[0].id).preemptions
    requires s.Get(items[0].id).Known() <= r'.Known() && Progress(r')
    ensures Core(m, cfg, s.Set(items[0].id, r'), items[1..], mode)
  {
    hide Cache.Valid, Agrees, Residents;
    var i := items[0].id;
    var s' := s.Set(i, r');
    assert ItemInFlight(m, cfg, s, items[0], mode);
    TailFlight(m, cfg, s, items, mode);
    ReplacedPlaces(cfg, s, i, r');
    HistGrows(s, s');
    AgreesMoreTokens(m, s.cache, Hist(s), Hist(s'));
    OthersInFlight(m, cfg, s, s', i, items[1..], mode);
    ContinuedResidents(s, i, r', items, mode);
  }

  lemma {:induction false} ContinuedResidents(s: Sys, i: nat, r': Req, items: seq<BatchItem>, mode: Mode)
    requires Residents(s, items, mode) && i in s.active && i < |s.reqs| && TableExact(s, i) && !mode.Unfed?
    requires items != [] && i == items[0].id
    requires forall j :: j in ItemIds(items) <==> j == i || j in ItemIds(items[1..])
    requires r'.fed == s.reqs[i].fed && s.reqs[i].Known() <= r'.Known() && Progress(r')
    ensures Residents(s.Set(i, r'), items[1..], mode)
  {
    var s' := s.Set(i, r');
    forall j | j in s'.active ensures LengthOk(s', j) && (j !in ItemIds(items[1..]) ==> Settled(s', j)) {
      assert LengthOk(s, j) && (j !in ItemIds(items) ==> Settled(s, j));
    }
  }

  lemma {:induction false} ActiveOpen(cfg: Config, s: Sys, i: nat)
    requires Places(cfg, s) && i in s.active
    ensures i < |s.reqs| && s.reqs[i].finalized == 0 && !s.reqs[i].state.Waiting?
  {
  }

  lemma {:induction false} RecomputedFacts(r: Req, item: BatchItem)
    ensures SameCore(r, Recomputed(r, item))
  {
  }

  lemma {:induction false} PostItemCore(m: Model, cfg: Config, s: Sys, items: seq<BatchItem>, outputs: map<nat, Token>,
                                        now: int)
    requires items != [] && Core(m, cfg, s, items, Fed(outputs))
    ensures Core(m, cfg, PostItem(cfg, s, items[0], outputs, now), items[1..], Fed(outputs))
  {
    hide CacheOk, Places, Finalize, AfterToken;
    var item, mode := items[0], Fed(outputs);
    var i := item.id;
    assert ItemInFlight(m, cfg, s, item, mode);
    ActiveOpen(cfg, s, i);
    TailFlight(m, cfg, s, items, mode);
    if s.Get(i).Terminal() {
      SetSelf(s, i);
      EndCore(m, cfg, s, i, s.Get(i), items, items[1..], mode, now);
    } else {
      RecomputedFacts(s.Get(i), item);
      var r := Recomputed(s.Get(i), item);
      SetSameCore(m, cfg, s, i, r, items, mode);
      var t := s.Set(i, r);
      if !item.sample {
        assert ItemInFlight(m, cfg, t, item, mode);
        assert Faithful(m, cfg, r);
        ContinueCore(m, cfg, t, r.(state := Prefill), items, mode);
      } else {
        PostSampled(m, cfg, t, items, outputs, now);
      }
    }
  }

  lemma {:induction false} PostSampled(m: Model, cfg: Config, s: Sys, items: seq<BatchItem>, outputs: map<nat, Token>,
                                       now: int)
    requires items != [] && Core(m, cfg, s, items, Fed(outputs)) && items[0].sample && !s.Get(items[0].id).Terminal()
    ensures items[0].id in outputs
    ensures Core(m, cfg, AfterToken(cfg, s, items[0].id, outputs[items[0].id], now), items[1..], Fed(outputs))
  {
    hide Published, CacheOk, Places;
    var mode, i := Fed(outputs), items[0].id;
    assert ItemInFlight(m, cfg, s, items[0], mode);
    ActiveOpen(cfg, s, i);
    TailFlight(m, cfg, s, items, mode);
    var r, token := s.Get(i), outputs[i];
    assert Faithful(m, cfg, s.reqs[i]);
    WithTokenFaithful(m, cfg, r, token, cfg.streamCapacity, now);
    PublishedFacts(r.(generated := r.generated + [token]),
                   StreamEvent(if EosHit(r, token) then None else Some(token), false), cfg.streamCapacity, now);
    var r' := WithToken(r, token, cfg.streamCapacity, now);
    assert r'.Known() == r.Known() + [token];
    if r'.state.Completed? {
      FinalizeCore(m, cfg, s, i, r', items, items[1..], mode, now);
    } else {
      ContinueCore(m, cfg, s, r', items, mode);
    }
  }

  lemma {:induction false} PostRanCore(m: Model, cfg: Config, s: Sys, items: seq<BatchItem>, outputs: map<nat, Token>,
                                       now: int)
    requires Core(m, cfg, s, items, Fed(outputs))
    ensures Core(m, cfg, PostRan(cfg, s, items, outputs, now), [], Unfed)
    decreases |items|
  {
    if items == [] {
      EmptyFlight(m, cfg, s, Fed(outputs), Unfed);
    } else {
      PostItemCore(m, cfg, s, items, outputs, now);
      PostRanCore(m, cfg, PostItem(cfg, s, items[0], outputs, now), items[1..], outputs, now);
    }
  }

  lemma {:induction false} PostCrashedCore(m: Model, cfg: Config, s: Sys, items: seq<BatchItem>, now: int)
    requires Core(m, cfg, s, items, Broken)
    ensures Core(m, cfg, PostCrashed(cfg, s, items, now), [], Unfed)
    decreases |items|
  {
    if items == [] {
      EmptyFlight(m, cfg, s, Broken, Unfed);
    } else {
      var i := items[0].id;
      assert ItemInFlight(m, cfg, s, items[0], Broken);
      TailFlight(m, cfg, s, items, Broken);
      var s' := if s.Get(i).Terminal() then Finalize(cfg, s, i, now) else Fail(cfg, s, i, false, now);
      if s.Get(i).Terminal() {
        SetSelf(s, i);
        EndCore(m, cfg, s, i, s.Get(i), items, items[1..], Broken, now);
      } else {
        FailCore(m, cfg, s, i, false, now, items, items[1..], Broken);
      }
      PostCrashedCore(m, cfg, s', items[1..], now);
    }
  }

  lemma {:induction false} FailIdleCore(m: Model, cfg: Config, s: Sys, i: nat, rejected: bool, now: int)
    requires Core(m, cfg, s, [], Unfed) && i < |s.reqs|
    ensures Core(m, cfg, Fail(cfg, s, i, rejected, now), [], Unfed)
    ensures |Fail(cfg, s, i, rejected, now).reqs| == |s.reqs|
  {
    if !s.Get(i).Terminal() {
      FailCore(m, cfg, s, i, rejected, now, [], [], Unfed);
    }
  }

  lemma {:induction false} PostRejectedCore(m: Model, cfg: Config, s: Sys, items: seq<BatchItem>, now: int)
    requires Core(m, cfg, s, [], Unfed) && forall k :: 0 <= k < |items| ==> items[k].id < |s.reqs|
    ensures Core(m, cfg, PostRejected(cfg, s, items, now), [], Unfed)
    decreases |items|
  {
    if items != [] {
      FailIdleCore(m, cfg, s, items[0].id, true, now);
      PostRejectedCore(m, cfg, Fail(cfg, s, items[0].id, true, now), items[1..], now);
    }
  }

  lemma {:induction false} PostCapacityCore(m: Model, cfg: Config, s: Sys, items: seq<BatchItem>, now: int)
    requires Core(m, cfg, s, items, Unfed)
    ensures Core(m, cfg, PostCapacity(cfg, s, items, now), [], Unfed)
  {
    DropUnfed(m, cfg, s, items, Unfed);
    LivingFacts(s, s.active);
    if CanPreempt(s) {
      EvictedCore(m, cfg, s, Victim(cfg, s, Living(s, s.active)));
    } else {
      forall k | 0 <= k < |items| ensures items[k].id < |s.reqs| {
        assert ItemInFlight(m, cfg, s, items[k], Unfed);
      }
      PostRejectedCore(m, cfg, s, items, now);
    }
  }
}
