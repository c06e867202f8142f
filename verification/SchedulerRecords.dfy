/** What may happen to one request's record, and steps as changes to some requests that leave the others alone. */
module SchedulerRecords {
  import opened Lists
  import opened Scheduling

  // -- the stream of one record --------------------------------------------------------------------

  /**
   * After `more` has been published behind what was pending: the first `k` of it all are on the queue, in order;
   * the rest is pending behind a full queue, the stall clock running from when it first was.
   */
  ghost predicate FlushedUpTo(r: Req, more: seq<StreamEvent>, r': Req, capacity: int, now: int, k: nat) {
    var all := r.pending + more;
    && k <= |all| && r'.queue == r.queue + all[..k] && r'.pending == all[k..]
    && (k < |all| ==> 0 < capacity <= |r'.queue|) && (k > 0 && capacity > 0 ==> |r'.queue| <= capacity)
    && r'.stalled == if k == |all| then None else if r.stalled.Some? then r.stalled else Some(now)
  }

  ghost predicate Flushed(r: Req, more: seq<StreamEvent>, r': Req, capacity: int, now: int) {
    exists k: nat :: FlushedUpTo(r, more, r', capacity, now, k)
  }

  lemma {:induction false} DrainedFlushes(r: Req, capacity: int, now: int) returns (k: nat)
    ensures var d := Drained(r, capacity, now);
      FlushedUpTo(r, [], d, capacity, now, k) && d == r.(queue := d.queue, pending := d.pending, stalled := d.stalled)
    decreases |r.pending|
  {
    hide FlushedUpTo;
    if r.pending == [] || QueueFull(capacity, |r.queue|) {
      k := 0;
      FlushedNone(r, capacity, now);
    } else {
      var n := DrainedFlushes(r.(queue := r.queue + [r.pending[0]], pending := r.pending[1..]), capacity, now);
      FlushedOneMore(r, Drained(r, capacity, now), capacity, now, n);
      k := n + 1;
    }
  }

  lemma {:induction false} FlushedNone(r: Req, capacity: int, now: int)
    requires r.pending == [] || QueueFull(capacity, |r.queue|)
    ensures FlushedUpTo(r, [], Drained(r, capacity, now), capacity, now, 0)
  {
    assert r.pending + [] == r.pending;
  }

  lemma {:induction false} FlushedOneMore(r: Req, d: Req, capacity: int, now: int, n: nat)
    requires r.pending != [] && !QueueFull(capacity, |r.queue|)
    requires FlushedUpTo(r.(queue := r.queue + [r.pending[0]], pending := r.pending[1..]), [], d, capacity, now, n)
    ensures FlushedUpTo(r, [], d, capacity, now, n + 1)
  {
    var rest := r.pending[1..];
    assert rest + [] == rest && r.pending + [] == r.pending;
    assert r.pending[..n + 1] == [r.pending[0]] + rest[..n];
    assert rest[n..] == r.pending[n + 1..];
  }

  lemma {:induction false} PublishedFlushes(r: Req, e: StreamEvent, capacity: int, now: int)
    ensures var d := Published(r, e, capacity, now);
      Flushed(r, [e], d, capacity, now) && d == r.(queue := d.queue, pending := d.pending, stalled := d.stalled)
  {
    var p := r.(pending := r.pending + [e]);
    var k := DrainedFlushes(p, capacity, now);
    assert p.pending + [] == r.pending + [e];
    assert FlushedUpTo(r, [e], Published(r, e, capacity, now), capacity, now, k);
  }

  // -- the end of one record ------------------------------------------------------------------------

  /**
   * The record has ended in this state: the terminator published behind everything undelivered, one more
   * finalization, the future resolved, nothing else changed.
   */
  ghost predicate EndsAs(cfg: Config, r: Req, r': Req, state: RequestState, rejected: bool, now: int) {
    && Flushed(r, [StreamEvent(None, true)], r', cfg.streamCapacity, now)
    && r'.resolved == (if r.resolved == 0 then 1 else r.resolved)
    && r' == r.(state := state, rejected := rejected, finalized := r.finalized + 1, resolved := r'.resolved,
                queue := r'.queue, pending := r'.pending, stalled := r'.stalled)
  }

  /** The record `r`, marked with its final state, after its finalization. */
  lemma {:induction false} FinalRecordEnds(cfg: Config, r: Req, state: RequestState, rejected: bool, now: int)
    ensures EndsAs(cfg, r, FinalRecord(r.(state := state, rejected := rejected), cfg.streamCapacity, now), state,
      rejected, now)
  {
    var m := r.(state := state, rejected := rejected);
    PublishedFlushes(m, STOP, cfg.streamCapacity, now);
    var p := Published(m, STOP, cfg.streamCapacity, now);
    var k: nat :| FlushedUpTo(m, [STOP], p, cfg.streamCapacity, now, k);
    assert FlushedUpTo(r, [StreamEvent(None, true)], FinalRecord(m, cfg.streamCapacity, now), cfg.streamCapacity, now,
      k);
  }

  // -- many records -----------------------------------------------------------------------------------

  /** Each request of `ids` has changed as `R` says; nobody else's record has. */
  ghost predicate Each(s: Sys, t: Sys, ids: seq<nat>, R: (nat, Req, Req) -> bool) {
    && |t.reqs| == |s.reqs|
    && forall i :: 0 <= i < |s.reqs| ==> if i in ids then R(i, s.reqs[i], t.reqs[i]) else t.reqs[i] == s.reqs[i]
  }

  lemma {:induction false} EachNone(s: Sys, t: Sys, R: (nat, Req, Req) -> bool)
    requires t.reqs == s.reqs
    ensures Each(s, t, [], R)
  {
  }

  /** The first one's change, then those of the rest. */
  lemma {:induction false} EachFirst(s: Sys, mid: Sys, t: Sys, ids: seq<nat>, R: (nat, Req, Req) -> bool)
    requires ids != [] && NoDup(ids) && Each(s, mid, [ids[0]], R) && Each(mid, t, ids[1..], R)
    ensures Each(s, t, ids, R)
  {
    assert ids == [ids[0]] + ids[1..];
    NoDupConcat([ids[0]], ids[1..]);
    forall i | 0 <= i < |s.reqs|
      ensures if i in ids then R(i, s.reqs[i], t.reqs[i]) else t.reqs[i] == s.reqs[i] {
      assert i in ids <==> i in [ids[0]] || i in ids[1..];
    }
  }

  // -- who has left ------------------------------------------------------------------------------------

  /** The requests of `gone` have left both lists; the others stand in their order. */
  ghost predicate Left(s: Sys, t: Sys, gone: seq<nat>) {
    t.waiting == Without(s.waiting, gone) && t.active == Without(s.active, gone) && t.phase == s.phase
  }

  lemma {:induction false} LeftNone(s: Sys, t: Sys)
    requires t.waiting == s.waiting && t.active == s.active && t.phase == s.phase
    ensures Left(s, t, [])
  {
    WithoutDisjoint(s.waiting, []);
    WithoutDisjoint(s.active, []);
  }

  lemma {:induction false} LeftThen(s: Sys, mid: Sys, t: Sys, a: seq<nat>, b: seq<nat>)
    requires Left(s, mid, a) && Left(mid, t, b)
    ensures Left(s, t, a + b)
  {
    WithoutTwice(s.waiting, a, b);
    WithoutTwice(s.active, a, b);
  }

  /** Finalizing request `i` with its record replaced by `r`. */
  lemma {:induction false} FinalizeLeaves(cfg: Config, s: Sys, i: nat, state: RequestState, rejected: bool, now: int)
    requires i < |s.reqs| && NoDup(s.waiting) && NoDup(s.active)
    ensures var r := s.reqs[i].(state := state, rejected := rejected);
      var t := Finalize(cfg, s.Set(i, r), i, now);
      && |t.reqs| == |s.reqs| && (forall j :: 0 <= j < |s.reqs| && j != i ==> t.reqs[j] == s.reqs[j])
      && EndsAs(cfg, s.reqs[i], t.reqs[i], state, rejected, now) && Left(s, t, [i])
      && t.metrics == Counted(s.metrics, r)
  {
    hide EndsAs, Teardown, FinalRecord, Without, RemoveFirst, Counted;
    FinalRecordEnds(cfg, s.reqs[i], state, rejected, now);
    RemoveFirstIsWithout(s.waiting, i);
    RemoveFirstIsWithout(s.active, i);
  }
}
