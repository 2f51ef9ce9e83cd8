/**
 * The legacy browser-session pool (ANTIGOS/session_pool.py): a list of
 * session records with a `busy` flag and a `last_used` time, a counter that
 * names each session "session_<n>", idle pruning at 1800 seconds, and a
 * lease that reuses the first idle session or creates one below the cap.
 *
 * A session is identified here by its counter value `number`; the source's
 * id string "session_<number>" is an injective function of it. Starting a
 * browser is an outcome supplied by the caller, and clocks are parameters.
 */
module SessionPool {
  import opened Wrappers
  import opened StringUtil

  const DefaultMaxSessions: int := 10
  const IdleLimitSeconds: int := 1800

  /**
   * `max_sessions`: the explicit argument when given; else the value of the
   * environment variable when it is set, non-empty and an integer; else 10.
   */
  function MaxSessionsSetting(explicit: Option<int>, env: Option<string>): (r: int)
    ensures explicit.Some? ==> r == explicit.value
    ensures explicit.None? && (env.None? || env.value == []) ==> r == DefaultMaxSessions
    ensures explicit.None? && env.Some? && IsDigitString(env.value) ==> r == DigitsValue(env.value)
    ensures explicit.None? && env.Some? && ParseInt(env.value).None? ==> r == DefaultMaxSessions
  {
    if explicit.Some? then explicit.value
    else if env.None? || env.value == [] then DefaultMaxSessions
    else
      match ParseInt(env.value)
      case Some(n) => n
      case None => DefaultMaxSessions
  }

  datatype PooledSession = PooledSession(number: nat, busy: bool, lastUsed: int, createdAt: int)

  datatype PoolState = PoolState(sessions: seq<PooledSession>, counter: nat)

  /** Session numbers increase strictly along the list. */
  predicate Increasing(ss: seq<PooledSession>) {
    forall i, j :: 0 <= i < j < |ss| ==> ss[i].number < ss[j].number
  }

  /** How many sessions a pool with this setting can hold (a negative setting allows none). */
  function Cap(maxSessions: int): nat {
    if maxSessions < 0 then 0 else maxSessions
  }

  /**
   * What every pool operation keeps: numbers strictly increasing (so unique),
   * none above the counter, and no more sessions than the cap.
   */
  predicate Valid(p: PoolState, maxSessions: int) {
    && Increasing(p.sessions)
    && (forall i :: 0 <= i < |p.sessions| ==> p.sessions[i].number <= p.counter)
    && |p.sessions| <= Cap(maxSessions)
  }

  /** A session survives pruning when it was used less than 1800 seconds ago. */
  predicate Recent(s: PooledSession, now: int) {
    now - s.lastUsed < IdleLimitSeconds
  }

  /** The list comprehension that drops every session idle 1800 seconds or more, busy or not. */
  function Prune(ss: seq<PooledSession>, now: int): (r: seq<PooledSession>)
    ensures |r| <= |ss|
    ensures forall x :: x in r <==> x in ss && Recent(x, now)
    ensures Increasing(ss) ==> Increasing(r)
  {
    if ss == [] then []
    else
      var rest := Prune(ss[1..], now);
      assert forall x :: x in ss[1..] ==> x in ss;
      if Recent(ss[0], now) then
        if Increasing(ss) then
          TailAbove(ss, rest);
          [ss[0]] + rest
        else
          [ss[0]] + rest
      else
        rest
  }

  /** In an increasing list, the head's number is below that of every element taken from the tail. */
  lemma TailAbove(ss: seq<PooledSession>, rest: seq<PooledSession>)
    requires ss != [] && Increasing(ss)
    requires Increasing(rest)
    requires forall x :: x in rest ==> x in ss[1..]
    ensures Increasing([ss[0]] + rest)
  {
    forall x | x in rest ensures ss[0].number < x.number {
      var k :| 0 <= k < |ss[1..]| && ss[1..][k] == x;
      assert ss[k + 1] == x;
    }
    var r := [ss[0]] + rest;
    forall i, j | 0 <= i < j < |r| ensures r[i].number < r[j].number {
      assert r[j] == rest[j - 1] && rest[j - 1] in rest;
      if i > 0 {
        assert r[i] == rest[i - 1];
      }
    }
  }

  /** A session numbered above every other can be appended to an increasing list. */
  lemma AppendAbove(ss: seq<PooledSession>, s: PooledSession)
    requires Increasing(ss)
    requires forall x :: x in ss ==> x.number < s.number
    ensures Increasing(ss + [s])
  {
    assert forall i :: 0 <= i < |ss| ==> ss[i] in ss;
  }

  /** Index of the first session that is not busy. */
  function FirstIdle(ss: seq<PooledSession>): (r: Option<nat>)
    ensures r.Some? ==> r.value < |ss| && !ss[r.value].busy && forall j :: 0 <= j < r.value ==> ss[j].busy
    ensures r.None? ==> forall j :: 0 <= j < |ss| ==> ss[j].busy
  {
    if ss == [] then None
    else if !ss[0].busy then Some(0)
    else
      match FirstIdle(ss[1..])
      case Some(i) => Some(i + 1)
      case None => None
  }

  /**
   * `get_session`: prune, then reuse the first idle session (busy, used now),
   * else, below the cap, count a creation attempt and append the new session
   * busy when its browser started; the second component is the leased number.
   */
  function Lease(p: PoolState, now: int, maxSessions: int, driverOk: bool): (PoolState, Option<nat>)
  {
    var pruned := Prune(p.sessions, now);
    match FirstIdle(pruned)
    case Some(i) =>
      (PoolState(pruned[i := pruned[i].(busy := true, lastUsed := now)], p.counter), Some(pruned[i].number))
    case None =>
      if |pruned| < maxSessions then
        var n := p.counter + 1;
        if driverOk then
          (PoolState(pruned + [PooledSession(n, true, now, now)], n), Some(n))
        else
          (PoolState(pruned, n), None)
      else
        (PoolState(pruned, p.counter), None)
  }

  /**
   * What a lease hands out: a leased session is in the pool, busy and used
   * now; nothing is leased only when every recent session is busy and no new
   * one could be made. The counter moves by at most one, and the pool grows
   * by at most the new session.
   */
  lemma LeaseOutcome(p: PoolState, now: int, maxSessions: int, driverOk: bool)
    ensures var r := Lease(p, now, maxSessions, driverOk);
      && (r.0.counter == p.counter || r.0.counter == p.counter + 1)
      && (r.1.Some? ==> exists i :: 0 <= i < |r.0.sessions| && r.0.sessions[i].number == r.1.value
                                    && r.0.sessions[i].busy && r.0.sessions[i].lastUsed == now)
      && (r.1.None? ==> (forall s :: s in p.sessions && Recent(s, now) ==> s.busy)
                        && (!driverOk || |r.0.sessions| >= maxSessions))
      && |r.0.sessions| <= |Prune(p.sessions, now)| + 1
  {
    var pruned := Prune(p.sessions, now);
    var r := Lease(p, now, maxSessions, driverOk);
    match FirstIdle(pruned)
    case Some(i) =>
      assert r.0.sessions[i].number == pruned[i].number;
    case None =>
      AllRecentBusy(p.sessions, now);
      if r.1.Some? {
        assert r.0.sessions[|pruned|].number == p.counter + 1;
      }
  }

  /** When no pruned session is idle, every recent session of the pool is busy. */
  lemma AllRecentBusy(ss: seq<PooledSession>, now: int)
    requires FirstIdle(Prune(ss, now)).None?
    ensures forall s :: s in ss && Recent(s, now) ==> s.busy
  {
    var pruned := Prune(ss, now);
    forall s | s in ss && Recent(s, now) ensures s.busy {
      assert s in pruned;
      var k :| 0 <= k < |pruned| && pruned[k] == s;
    }
  }

  /** Every pruned session comes from the pool. */
  lemma PrunedFromPool(ss: seq<PooledSession>, now: int)
    ensures forall k :: 0 <= k < |Prune(ss, now)| ==> Prune(ss, now)[k] in ss && Recent(Prune(ss, now)[k], now)
  {
    var pruned := Prune(ss, now);
    forall k | 0 <= k < |pruned| ensures pruned[k] in ss && Recent(pruned[k], now) {
      assert pruned[k] in pruned;
    }
  }

  /** Every lease keeps the pool invariant: unique increasing numbers within the counter, size within the cap. */
  lemma LeaseKeepsValid(p: PoolState, now: int, maxSessions: int, driverOk: bool)
    requires Valid(p, maxSessions)
    ensures Valid(Lease(p, now, maxSessions, driverOk).0, maxSessions)
  {
    var pruned := Prune(p.sessions, now);
    PrunedValid(p, now, maxSessions);
    match FirstIdle(pruned)
    case Some(i) =>
      MarkBusyValid(PoolState(pruned, p.counter), i, now, maxSessions);
    case None =>
      if |pruned| < maxSessions && driverOk {
        AddNewValid(PoolState(pruned, p.counter), now, maxSessions);
      }
  }

  /** Pruning a valid pool leaves it valid. */
  lemma PrunedValid(p: PoolState, now: int, maxSessions: int)
    requires Valid(p, maxSessions)
    ensures Valid(PoolState(Prune(p.sessions, now), p.counter), maxSessions)
  {
    PrunedFromPool(p.sessions, now);
    var pruned := Prune(p.sessions, now);
    forall k | 0 <= k < |pruned| ensures pruned[k].number <= p.counter {
      var j :| 0 <= j < |p.sessions| && p.sessions[j] == pruned[k];
    }
  }

  /** Marking one session busy keeps a pool valid. */
  lemma MarkBusyValid(q: PoolState, i: nat, now: int, maxSessions: int)
    requires Valid(q, maxSessions) && i < |q.sessions|
    ensures Valid(PoolState(q.sessions[i := q.sessions[i].(busy := true, lastUsed := now)], q.counter), maxSessions)
  {
    var r := q.sessions[i := q.sessions[i].(busy := true, lastUsed := now)];
    assert forall k :: 0 <= k < |r| ==> r[k].number == q.sessions[k].number;
  }

  /** Appending a session under the next counter value keeps a pool below its cap valid. */
  lemma AddNewValid(q: PoolState, now: int, maxSessions: int)
    requires Valid(q, maxSessions) && |q.sessions| < maxSessions
    ensures Valid(PoolState(q.sessions + [PooledSession(q.counter + 1, true, now, now)], q.counter + 1), maxSessions)
  {
    var s := PooledSession(q.counter + 1, true, now, now);
    forall x | x in q.sessions ensures x.number < s.number {
      var j :| 0 <= j < |q.sessions| && q.sessions[j] == x;
    }
    AppendAbove(q.sessions, s);
  }

  /**
   * The leased session was idle and recent, or it is the one just created
   * under the next counter value, which happens only when nothing recent was
   * idle and the pruned pool was below the cap.
   */
  lemma LeaseSource(p: PoolState, now: int, maxSessions: int, driverOk: bool)
    ensures var r := Lease(p, now, maxSessions, driverOk);
      && (r.1.Some? ==> (exists s :: s in p.sessions && Recent(s, now) && !s.busy && s.number == r.1.value)
                        || r.1.value == r.0.counter == p.counter + 1)
      && (r.0.counter == p.counter + 1 ==>
            (forall s :: s in p.sessions && Recent(s, now) ==> s.busy) && |Prune(p.sessions, now)| < maxSessions)
  {
    var pruned := Prune(p.sessions, now);
    PrunedFromPool(p.sessions, now);
    match FirstIdle(pruned)
    case Some(i) =>
      assert pruned[i] in p.sessions;
    case None =>
      AllRecentBusy(p.sessions, now);
  }

  /**
   * A newly created session's number is larger than every number already in
   * the pool, so ids are never reused even after pruning or cleanup.
   */
  lemma CreatedNumberIsNew(p: PoolState, now: int, maxSessions: int, driverOk: bool)
    requires Valid(p, maxSessions)
    ensures var r := Lease(p, now, maxSessions, driverOk);
            r.1.Some? && r.1.value == p.counter + 1 ==> forall s :: s in p.sessions ==> s.number < r.1.value
  {
  }

  /**
   * Pruning drops a session idle 1800 seconds or more even while it is busy:
   * after the next lease no session carries its number unless that lease
   * created it anew, which cannot happen since numbers only grow.
   */
  lemma {:induction false} StaleBusySessionIsDropped(p: PoolState, now: int, maxSessions: int, driverOk: bool, s: PooledSession)
    requires Valid(p, maxSessions)
    requires s in p.sessions && s.busy && now - s.lastUsed >= IdleLimitSeconds
    ensures forall x :: x in Lease(p, now, maxSessions, driverOk).0.sessions ==> x.number != s.number
  {
    var r := Lease(p, now, maxSessions, driverOk);
    var pruned := Prune(p.sessions, now);
    assert s !in pruned;
    NumberUnique(p.sessions, s);
    forall x | x in r.0.sessions ensures x.number != s.number {
      var k :| 0 <= k < |r.0.sessions| && r.0.sessions[k] == x;
      if k < |pruned| {
        assert pruned[k] in pruned;
        assert x.number == pruned[k].number by {
          match FirstIdle(pruned)
          case Some(i) =>
          case None =>
        }
      } else {
        assert x.number == p.counter + 1;
      }
    }
  }

  /** In an increasing list, the element with a given number is the only one with it. */
  lemma NumberUnique(ss: seq<PooledSession>, s: PooledSession)
    requires Increasing(ss) && s in ss
    ensures forall x :: x in ss && x.number == s.number ==> x == s
  {
    forall x | x in ss && x.number == s.number ensures x == s {
      var i :| 0 <= i < |ss| && ss[i] == x;
      var j :| 0 <= j < |ss| && ss[j] == s;
      assert i == j;
    }
  }

  /**
   * `release_session`: nothing for None; otherwise the session with that
   * number becomes idle and is marked used now. A session already pruned
   * from the pool leaves the pool unchanged.
   */
  function Release(p: PoolState, number: Option<nat>, now: int): (r: PoolState)
    ensures r.counter == p.counter && |r.sessions| == |p.sessions|
    ensures number.None? ==> r == p
  {
    match number
    case None => p
    case Some(n) =>
      PoolState(seq(|p.sessions|, i requires 0 <= i < |p.sessions| =>
                      if p.sessions[i].number == n then p.sessions[i].(busy := false, lastUsed := now) else p.sessions[i]),
                p.counter)
  }

  /** Exactly the sessions carrying the released number become idle and used now; the others are untouched. */
  lemma ReleaseMarksIdle(p: PoolState, number: Option<nat>, now: int)
    ensures var r := Release(p, number, now);
      forall i :: 0 <= i < |p.sessions| ==>
        r.sessions[i] == if number == Some(p.sessions[i].number)
                         then p.sessions[i].(busy := false, lastUsed := now)
                         else p.sessions[i]
  {
  }

  lemma ReleaseKeepsValid(p: PoolState, number: Option<nat>, now: int, maxSessions: int)
    requires Valid(p, maxSessions)
    ensures Valid(Release(p, number, now), maxSessions)
  {
    var r := Release(p, number, now);
    ReleaseMarksIdle(p, number, now);
    assert forall i :: 0 <= i < |r.sessions| ==> r.sessions[i].number == p.sessions[i].number;
  }

  function CountBusy(ss: seq<PooledSession>): (r: nat)
    ensures r <= |ss|
    ensures r == 0 <==> forall i :: 0 <= i < |ss| ==> !ss[i].busy
  {
    if ss == [] then 0 else (if ss[|ss| - 1].busy then 1 else 0) + CountBusy(ss[..|ss| - 1])
  }

  datatype PoolStatus = PoolStatus(maxSessions: int, activeSessions: nat, totalSessions: nat,
                                   availableSessions: int, sessionCounter: nat)

  /** `get_status`: active is the number of busy sessions, available is total minus active. */
  function Status(p: PoolState, maxSessions: int): (r: PoolStatus)
    ensures r.totalSessions == |p.sessions| && r.activeSessions == CountBusy(p.sessions)
    ensures r.availableSessions == r.totalSessions - r.activeSessions >= 0
    ensures r.maxSessions == maxSessions && r.sessionCounter == p.counter
  {
    var active := CountBusy(p.sessions);
    PoolStatus(maxSessions, active, |p.sessions|, |p.sessions| - active, p.counter)
  }

  /** Whether the browser of the k-th creation attempt starts; attempts beyond the list fail. */
  function DriverAt(drivers: seq<bool>, k: nat): bool {
    k < |drivers| && drivers[k]
  }

  /** Attempt k starts `k * delay` seconds after the first (time spent inside an attempt is not counted). */
  function AttemptTime(now: int, k: nat, delay: int): int {
    now + k * delay
  }

  function Remaining(maxRetries: int, k: nat): nat {
    if maxRetries <= k then 0 else maxRetries - k
  }

  class SessionPool {
    var sessions: seq<PooledSession>
    var sessionCounter: nat
    const maxSessions: int

    function Snapshot(): PoolState
      reads this
    {
      PoolState(sessions, sessionCounter)
    }

    constructor (explicit: Option<int>, env: Option<string>)
      ensures maxSessions == MaxSessionsSetting(explicit, env)
      ensures sessions == [] && sessionCounter == 0
      ensures Valid(Snapshot(), maxSessions)
    {
      maxSessions := MaxSessionsSetting(explicit, env);
      sessions := [];
      sessionCounter := 0;
    }

    /** `_create_session`: the counter moves on whether or not the browser starts. */
    method CreateSession(driverOk: bool, now: int) returns (created: Option<PooledSession>)
      modifies this
      ensures sessionCounter == old(sessionCounter) + 1 && sessions == old(sessions)
      ensures created.Some? <==> driverOk
      ensures driverOk ==> created == Some(PooledSession(sessionCounter, false, now, now))
    {
      sessionCounter := sessionCounter + 1;
      if !driverOk {
        return None;
      }
      created := Some(PooledSession(sessionCounter, false, now, now));
    }

    method GetSession(now: int, driverOk: bool) returns (leased: Option<nat>)
      modifies this
      ensures (Snapshot(), leased) == Lease(old(Snapshot()), now, maxSessions, driverOk)
    {
      sessions := Prune(sessions, now);
      var i := 0;
      while i < |sessions|
        invariant 0 <= i <= |sessions|
        invariant forall j :: 0 <= j < i ==> sessions[j].busy
        invariant sessions == Prune(old(sessions), now) && sessionCounter == old(sessionCounter)
      {
        if !sessions[i].busy {
          assert FirstIdle(sessions) == Some(i);
          sessions := sessions[i := sessions[i].(busy := true, lastUsed := now)];
          return Some(sessions[i].number);
        }
        i := i + 1;
      }
      assert FirstIdle(sessions).None?;
      if |sessions| < maxSessions {
        var created := CreateSession(driverOk, now);
        if created.Some? {
          var s := created.value.(busy := true, lastUsed := now);
          sessions := sessions + [s];
          return Some(s.number);
        }
      }
      return None;
    }

    method ReleaseSession(number: Option<nat>, now: int)
      modifies this
      ensures Snapshot() == Release(old(Snapshot()), number, now)
    {
      if number.None? {
        return;
      }
      var i := 0;
      while i < |sessions|
        invariant 0 <= i <= |sessions| == |old(sessions)|
        invariant sessionCounter == old(sessionCounter)
        invariant forall j :: 0 <= j < |sessions| ==>
          sessions[j] == if j < i && number == Some(old(sessions)[j].number)
                         then old(sessions)[j].(busy := false, lastUsed := now)
                         else old(sessions)[j]
      {
        if sessions[i].number == number.value {
          sessions := sessions[i := sessions[i].(busy := false, lastUsed := now)];
        }
        i := i + 1;
      }
      ReleaseMarksIdle(old(Snapshot()), number, now);
    }

    /** `cleanup`: every browser is shut down (failures ignored) and the list emptied; the counter stays. */
    method Cleanup()
      modifies this
      ensures sessions == [] && sessionCounter == old(sessionCounter)
    {
      sessions := [];
    }

    method GetStatus() returns (status: PoolStatus)
      ensures status == Status(Snapshot(), maxSessions)
      ensures status.availableSessions >= 0
    {
      var active := 0;
      var i := 0;
      while i < |sessions|
        invariant 0 <= i <= |sessions|
        invariant active == CountBusy(sessions[..i])
      {
        assert sessions[..i + 1][..i] == sessions[..i];
        if sessions[i].busy {
          active := active + 1;
        }
        i := i + 1;
      }
      assert sessions[..i] == sessions;
      status := PoolStatus(maxSessions, active, |sessions|, |sessions| - active, sessionCounter);
    }

    /**
     * `get_session_with_retry`: at most `maxRetries` calls to `get_session`,
     * `delay` seconds apart, stopping at the first one that obtains a
     * session; `outcomes` records what each call returned.
     */
    method GetSessionWithRetry(maxRetries: int, delay: int, now: int, drivers: seq<bool>)
      returns (leased: Option<nat>, calls: nat, ghost outcomes: seq<Option<nat>>)
      requires Valid(Snapshot(), maxSessions)
      modifies this
      ensures Valid(Snapshot(), maxSessions)
      ensures calls == |outcomes| <= Remaining(maxRetries, 0)
      ensures forall j :: 0 <= j < calls - 1 ==> outcomes[j].None?
      ensures calls > 0 ==> outcomes[calls - 1] == leased
      ensures leased.None? ==> calls == Remaining(maxRetries, 0)
      ensures leased.Some? ==> calls >= 1
      ensures leased.Some? ==> exists i :: 0 <= i < |sessions| && sessions[i].number == leased.value
                                 && sessions[i].busy && sessions[i].lastUsed == AttemptTime(now, calls - 1, delay)
    {
      var attempt: nat := 0;
      outcomes := [];
      while attempt < maxRetries
        invariant Valid(Snapshot(), maxSessions)
        invariant attempt == |outcomes| <= Remaining(maxRetries, 0)
        invariant forall j :: 0 <= j < attempt ==> outcomes[j].None?
        decreases maxRetries - attempt
      {
        LeaseKeepsValid(Snapshot(), AttemptTime(now, attempt, delay), maxSessions, DriverAt(drivers, attempt));
        LeaseOutcome(Snapshot(), AttemptTime(now, attempt, delay), maxSessions, DriverAt(drivers, attempt));
        leased := GetSession(AttemptTime(now, attempt, delay), DriverAt(drivers, attempt));
        if leased.Some? {
          outcomes := outcomes + [leased];
          return leased, attempt + 1, outcomes;
        }
        outcomes := outcomes + [None];
        attempt := attempt + 1;
      }
      return None, attempt, outcomes;
    }
  }
}
