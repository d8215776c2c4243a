/**
  * The progress counters shared by the producer and the consumer
  * (`StatusTracker` in run.py). The lock around each update only gives mutual
  * exclusion, so in this sequential model every call is one atomic step.
  */
module Tracker {

  /** The three counters, as one value. */
  datatype Counters = Counters(total: int, completed: nat, failed: nat)

  /** One call on the tracker: `set_total(count)` or `increment_done(success)`. */
  datatype Event = TotalSet(count: int) | Done(success: bool)

  function Initial(): Counters {
    Counters(0, 0, 0)
  }

  /** The effect of one call on the counters. */
  function Apply(c: Counters, e: Event): Counters {
    match e
    case TotalSet(n) => c.(total := n)
    case Done(ok) => c.(completed := c.completed + 1, failed := if ok then c.failed else c.failed + 1)
  }

  /** The counters after a sequence of calls. */
  function Replay(c: Counters, events: seq<Event>): Counters
    decreases |events|
  {
    if events == [] then c else Apply(Replay(c, events[..|events| - 1]), events[|events| - 1])
  }

  /** Number of `increment_done` calls. */
  function CountDone(events: seq<Event>): nat
    decreases |events|
  {
    if events == [] then 0
    else CountDone(events[..|events| - 1]) + (if events[|events| - 1].Done? then 1 else 0)
  }

  /** Number of `increment_done(success=False)` calls. */
  function CountFailed(events: seq<Event>): nat
    decreases |events|
  {
    if events == [] then 0
    else CountFailed(events[..|events| - 1]) + (if events[|events| - 1] == Done(false) then 1 else 0)
  }

  /** The argument of the last `set_total` call, or `default` if there was none. */
  function LastTotal(events: seq<Event>, default: int): int
    decreases |events|
  {
    if events == [] then default
    else if events[|events| - 1].TotalSet? then events[|events| - 1].count
    else LastTotal(events[..|events| - 1], default)
  }

  lemma {:induction false} CountsOfConcat(a: seq<Event>, b: seq<Event>)
    ensures CountDone(a + b) == CountDone(a) + CountDone(b)
    ensures CountFailed(a + b) == CountFailed(a) + CountFailed(b)
    decreases |b|
  {
    if b == [] {
      assert a + b == a;
    } else {
      assert (a + b)[..|a + b| - 1] == a + b[..|b| - 1];
      CountsOfConcat(a, b[..|b| - 1]);
    }
  }

  /**
    * Each `increment_done` raises `completed` by one and `failed` by one exactly
    * when it reports a failure; `total_to_process` is whatever the last
    * `set_total` wrote.
    */
  lemma {:induction false} ReplayTally(c: Counters, events: seq<Event>)
    ensures Replay(c, events)
         == Counters(LastTotal(events, c.total), c.completed + CountDone(events), c.failed + CountFailed(events))
    decreases |events|
  {
    if events != [] {
      ReplayTally(c, events[..|events| - 1]);
    }
  }

  /** `increment_done` calls leave the total as the last `set_total` before them wrote it. */
  lemma {:induction false} LastTotalIgnoresDone(a: seq<Event>, b: seq<Event>, default: int)
    requires forall k :: 0 <= k < |b| ==> b[k].Done?
    ensures LastTotal(a + b, default) == LastTotal(a, default)
    decreases |b|
  {
    if b == [] {
      assert a + b == a;
    } else {
      assert (a + b)[..|a + b| - 1] == a + b[..|b| - 1];
      LastTotalIgnoresDone(a, b[..|b| - 1], default);
    }
  }

  /** Every failure is also a completion. */
  lemma {:induction false} FailedWithinDone(events: seq<Event>)
    ensures CountFailed(events) <= CountDone(events)
    decreases |events|
  {
    if events != [] {
      FailedWithinDone(events[..|events| - 1]);
    }
  }

  /** From fresh counters, `failed <= completed` after any sequence of calls. */
  lemma FailedNeverExceedsCompleted(events: seq<Event>)
    ensures Replay(Initial(), events).failed <= Replay(Initial(), events).completed
  {
    ReplayTally(Initial(), events);
    FailedWithinDone(events);
  }

  class StatusTracker {
    var totalToProcess: int
    var completed: nat
    var failed: nat
    /** The calls made so far. */
    ghost var history: seq<Event>

    function Snapshot(): Counters
      reads this
    {
      Counters(totalToProcess, completed, failed)
    }

    /** The counters are exactly the replay of the calls made on a fresh tracker. */
    ghost predicate Valid()
      reads this
    {
      Snapshot() == Replay(Initial(), history)
    }

    constructor ()
      ensures Valid() && history == []
      ensures totalToProcess == 0 && completed == 0 && failed == 0
    {
      totalToProcess, completed, failed := 0, 0, 0;
      history := [];
    }

    /** `set_total`: overwrites the total, leaves the other two counters alone. */
    method SetTotal(count: int)
      requires Valid()
      modifies this
      ensures Valid() && history == old(history) + [TotalSet(count)]
      ensures totalToProcess == count
      ensures completed == old(completed) && failed == old(failed)
    {
      totalToProcess := count;
      history := history + [TotalSet(count)];
    }

    /** `increment_done`: one more completion, and one more failure when `success` is false. */
    method IncrementDone(success: bool)
      requires Valid()
      modifies this
      ensures Valid() && history == old(history) + [Done(success)]
      ensures completed == old(completed) + 1
      ensures failed == if success then old(failed) else old(failed) + 1
      ensures totalToProcess == old(totalToProcess)
    {
      completed := completed + 1;
      if !success {
        failed := failed + 1;
      }
      history := history + [Done(success)];
    }
  }

  /** A tracker used only through its methods never shows more failures than completions. */
  lemma TrackerFailedWithinCompleted(t: StatusTracker)
    requires t.Valid()
    ensures t.failed <= t.completed
  {
    FailedNeverExceedsCompleted(t.history);
  }

  /** The counters of a tracker are determined by the calls made on it. */
  lemma TrackerCounts(t: StatusTracker)
    requires t.Valid()
    ensures t.completed == CountDone(t.history)
    ensures t.failed == CountFailed(t.history)
    ensures t.totalToProcess == LastTotal(t.history, 0)
  {
    ReplayTally(Initial(), t.history);
  }

  /** The sequence of calls in the repository's own tracker test. */
  lemma TrackerScenario()
    ensures Replay(Initial(), [TotalSet(5), Done(true), Done(false)]) == Counters(5, 2, 1)
  {
    var e := [TotalSet(5), Done(true), Done(false)];
    assert e[..2] == [TotalSet(5), Done(true)] && e[..2][..1] == [TotalSet(5)];
    assert Replay(Initial(), [TotalSet(5)]) == Counters(5, 0, 0);
    assert Replay(Initial(), e[..2]) == Counters(5, 1, 0);
  }
}
