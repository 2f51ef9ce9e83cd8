/**
 * The concurrency gate of the FastAPI service (core/concurrency_manager.py):
 * four counters kept around every guarded call. A call has three phases —
 * arrival (counted as queued when the gate is saturated), entry through the
 * semaphore (one queued count removed, active and total raised) and exit
 * (failed raised on an exception or a timeout, active lowered). Interleaved
 * calls are sequences of these phases. The semaphore itself is not
 * modelled: entry has no precondition, and `maxConcurrent` appears only in
 * the arrival test that decides whether a call is counted as queued.
 */
module ConcurrencyGate {

  datatype Counters = Counters(active: int, queued: nat, total: nat, failed: nat)

  /** How the guarded call ended: it returned, raised, or hit the timeout. */
  datatype CallOutcome = Succeeded | Raised | TimedOut

  function Initial(): Counters {
    Counters(0, 0, 0, 0)
  }

  /** Arrival: counted as queued exactly when the gate is already saturated; the flag says whether it was. */
  function Arrive(c: Counters, maxConcurrent: int): (r: (Counters, bool))
    ensures r.1 <==> c.active >= maxConcurrent
    ensures r.0.queued == c.queued + (if r.1 then 1 else 0)
    ensures r.0.active == c.active && r.0.total == c.total && r.0.failed == c.failed
  {
    if c.active >= maxConcurrent then (c.(queued := c.queued + 1), true) else (c, false)
  }

  /**
   * Entry through the semaphore as written: one queued count is removed
   * whenever any is left, whether or not this call was the one counted.
   */
  function Enter(c: Counters): (r: Counters)
    ensures r.queued == if c.queued > 0 then c.queued - 1 else 0
    ensures r.active == c.active + 1 && r.total == c.total + 1 && r.failed == c.failed
  {
    var q := if c.queued > 0 then c.queued - 1 else c.queued;
    Counters(c.active + 1, q, c.total + 1, c.failed)
  }

  /** Exit: a raise or a timeout counts one failure; active always drops by one. */
  function Leave(c: Counters, outcome: CallOutcome): (r: Counters)
    ensures r.active == c.active - 1 && r.queued == c.queued && r.total == c.total
    ensures r.failed == c.failed + (if outcome.Succeeded? then 0 else 1)
  {
    Counters(c.active - 1, c.queued, c.total, if outcome.Succeeded? then c.failed else c.failed + 1)
  }

  /** `reset_stats`: total and failed go back to zero; active and queued stay. */
  function Reset(c: Counters): (r: Counters)
    ensures r.total == 0 && r.failed == 0 && r.active == c.active && r.queued == c.queued
  {
    c.(total := 0, failed := 0)
  }

  /** One call run from arrival to exit with no other call in between. */
  function Execute(c: Counters, maxConcurrent: int, outcome: CallOutcome): Counters {
    Leave(Enter(Arrive(c, maxConcurrent).0), outcome)
  }

  /**
   * One guarded call, alone: active is back to its value before the call,
   * total grows by one, failed grows by one exactly on a raise or a timeout,
   * and the queued count never grows.
   */
  lemma ExecuteBookkeeping(c: Counters, maxConcurrent: int, outcome: CallOutcome)
    ensures var r := Execute(c, maxConcurrent, outcome);
      && r.active == c.active
      && r.total == c.total + 1
      && (r.failed == c.failed + 1 <==> !outcome.Succeeded?)
      && (r.failed == c.failed <==> outcome.Succeeded?)
      && r.queued <= c.queued
      && (c.active >= maxConcurrent ==> r.queued == c.queued)
  {
  }

  /** `success_rate` as an exact ratio: 100 with no calls, else the percentage of calls that did not fail. */
  function SuccessRate(c: Counters): real {
    if c.total > 0 then ((c.total - c.failed) as real) / (c.total as real) * 100.0 else 100.0
  }

  /** With no more failures than calls, the rate is a percentage, 100 exactly when nothing failed and 0 exactly when everything did. */
  lemma SuccessRateRange(c: Counters)
    requires c.failed <= c.total
    ensures 0.0 <= SuccessRate(c) <= 100.0
    ensures SuccessRate(c) == 100.0 <==> c.failed == 0
    ensures SuccessRate(c) == 0.0 <==> c.total > 0 && c.failed == c.total
  {
    if c.total > 0 {
      var t := c.total as real;
      var ok := (c.total - c.failed) as real;
      var q := ok / t;
      assert q * t == ok;
      assert 0.0 <= q <= 1.0;
      assert SuccessRate(c) == q * 100.0;
      if q == 1.0 {
        assert ok == t;
      }
      if c.failed == 0 {
        assert ok == t;
      }
      if q == 0.0 {
        assert ok == 0.0;
      }
    }
  }

  /** Calls run one after another and resets keep failures within the total. */
  lemma SequentialUseKeepsFailedWithinTotal(c: Counters, maxConcurrent: int, outcome: CallOutcome)
    requires c.failed <= c.total
    ensures Execute(c, maxConcurrent, outcome).failed <= Execute(c, maxConcurrent, outcome).total
    ensures Reset(c).failed <= Reset(c).total
  {
  }

  /**
   * A reset while two calls are inside the gate lets failures outrun the
   * total: both fail, one more call succeeds, and the reported rate is -100.
   */
  lemma ResetDuringCallsGivesNegativeRate()
    ensures
      var a := Enter(Arrive(Initial(), 6).0);
      var b := Enter(Arrive(a, 6).0);
      var d := Leave(Leave(Reset(b), Raised), TimedOut);
      var e := Execute(d, 6, Succeeded);
      && d.failed == 2 && d.total == 0 && SuccessRate(d) == 100.0
      && e.failed == 2 && e.total == 1 && SuccessRate(e) == -100.0
  {
  }

  /**
   * Ten calls against a gate of six, the first six entering before the rest
   * arrive: six are active, four are counted as queued.
   */
  lemma TenCallsAgainstSix()
    ensures
      var six := Enter(Arrive(Enter(Arrive(Enter(Arrive(Enter(Arrive(Enter(Arrive(Enter(Arrive(Initial(), 6).0), 6).0), 6).0), 6).0), 6).0), 6).0);
      var ten := Arrive(Arrive(Arrive(Arrive(six, 6).0, 6).0, 6).0, 6).0;
      six.active == 6 && ten.active == 6 && ten.queued == 4 && ten.total == 6
  {
    var c := Initial();
    var k := 0;
    while k < 6
      invariant 0 <= k <= 6 && c == Counters(k, 0, k, 0)
    {
      c := Enter(Arrive(c, 6).0);
      k := k + 1;
    }
    var six := Enter(Arrive(Enter(Arrive(Enter(Arrive(Enter(Arrive(Enter(Arrive(Enter(Arrive(Initial(), 6).0), 6).0), 6).0), 6).0), 6).0), 6).0);
    assert six == c;
  }

  // ---------------------------------------------------------------------
  // The queued count, as written and as intended
  // ---------------------------------------------------------------------

  /** The number of waiting calls that were counted as queued on arrival. */
  function CountedWaiting(waiting: multiset<bool>): nat {
    waiting[true]
  }

  /**
   * With one slot: A enters; B arrives while A is inside and is counted; A
   * leaves; C arrives to a free slot, is not counted, and takes the slot
   * first. Entry as written removes B's count, so the gate reports nothing
   * queued while B is still waiting.
   */
  lemma QueuedCountLosesWaitingCall()
    ensures
      var a := Enter(Arrive(Initial(), 1).0);
      var (b, bCounted) := Arrive(a, 1);
      var afterA := Leave(b, Succeeded);
      var (c, cCounted) := Arrive(afterA, 1);
      var cIn := Enter(c);
      && bCounted && !cCounted
      && CountedWaiting(multiset{bCounted}) == 1
      && cIn.queued == 0
  {
  }

  /** Entry as intended: a call removes a queued count only when it was itself counted on arrival. */
  function EnterCounted(c: Counters, wasCounted: bool): (r: Counters)
    ensures r.active == c.active + 1 && r.total == c.total + 1 && r.failed == c.failed
    ensures r.queued == if wasCounted && c.queued > 0 then c.queued - 1 else c.queued
  {
    var q := if wasCounted && c.queued > 0 then c.queued - 1 else c.queued;
    Counters(c.active + 1, q, c.total + 1, c.failed)
  }

  /** The intended reading of the queued count: the number of waiting calls counted on arrival. */
  predicate QueuedMatches(c: Counters, waiting: multiset<bool>) {
    c.queued == CountedWaiting(waiting)
  }

  /**
   * With the intended entry, every phase of every call keeps the queued
   * count equal to the number of counted calls still waiting, in any
   * interleaving.
   */
  lemma IntendedEntryKeepsQueuedExact(c: Counters, waiting: multiset<bool>, maxConcurrent: int, flag: bool, outcome: CallOutcome)
    requires QueuedMatches(c, waiting)
    ensures var (a, counted) := Arrive(c, maxConcurrent); QueuedMatches(a, waiting + multiset{counted})
    ensures flag in waiting ==> QueuedMatches(EnterCounted(c, flag), waiting - multiset{flag})
    ensures QueuedMatches(Leave(c, outcome), waiting)
    ensures QueuedMatches(Reset(c), waiting)
  {
    if flag in waiting {
      var w := waiting - multiset{flag};
      assert waiting == w + multiset{flag};
      if flag {
        assert waiting[true] == w[true] + 1;
      } else {
        assert waiting[true] == w[true];
      }
    }
  }

  datatype Stats = Stats(maxConcurrent: int, activeRequests: int, queuedRequests: nat,
                         totalRequests: nat, failedRequests: nat, successRate: real)

  class ConcurrencyManager {
    const maxConcurrent: int
    var activeRequests: int
    var queuedRequests: nat
    var totalRequests: nat
    var failedRequests: nat

    function Snapshot(): Counters
      reads this
    {
      Counters(activeRequests, queuedRequests, totalRequests, failedRequests)
    }

    constructor (maxConcurrent: int)
      ensures this.maxConcurrent == maxConcurrent && Snapshot() == Initial()
    {
      this.maxConcurrent := maxConcurrent;
      activeRequests := 0;
      queuedRequests := 0;
      totalRequests := 0;
      failedRequests := 0;
    }

    /** The check before the semaphore. */
    method Arrival() returns (counted: bool)
      modifies this
      ensures (Snapshot(), counted) == Arrive(old(Snapshot()), maxConcurrent)
    {
      counted := activeRequests >= maxConcurrent;
      if counted {
        queuedRequests := queuedRequests + 1;
      }
    }

    /** The bookkeeping once the semaphore is held. */
    method Entry()
      modifies this
      ensures Snapshot() == Enter(old(Snapshot()))
    {
      if queuedRequests > 0 {
        queuedRequests := queuedRequests - 1;
      }
      activeRequests := activeRequests + 1;
      totalRequests := totalRequests + 1;
    }

    /** The exception handlers and the `finally` block. */
    method Exit(outcome: CallOutcome)
      modifies this
      ensures Snapshot() == Leave(old(Snapshot()), outcome)
    {
      if !outcome.Succeeded? {
        failedRequests := failedRequests + 1;
      }
      activeRequests := activeRequests - 1;
    }

    /**
     * `execute_with_limits` with no other call in between; the result says
     * whether the call's value is returned (otherwise its exception is re-raised).
     */
    method ExecuteWithLimits(outcome: CallOutcome) returns (returned: bool)
      modifies this
      ensures Snapshot() == Execute(old(Snapshot()), maxConcurrent, outcome)
      ensures returned <==> outcome.Succeeded?
    {
      var _ := Arrival();
      Entry();
      Exit(outcome);
      returned := outcome.Succeeded?;
    }

    method GetStats() returns (s: Stats)
      ensures s == Stats(maxConcurrent, activeRequests, queuedRequests, totalRequests, failedRequests, SuccessRate(Snapshot()))
    {
      var rate := if totalRequests > 0
        then ((totalRequests - failedRequests) as real) / (totalRequests as real) * 100.0
        else 100.0;
      s := Stats(maxConcurrent, activeRequests, queuedRequests, totalRequests, failedRequests, rate);
    }

    method ResetStats()
      modifies this
      ensures Snapshot() == Reset(old(Snapshot()))
    {
      totalRequests := 0;
      failedRequests := 0;
    }
  }
}
