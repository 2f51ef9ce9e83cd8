/**
 * The Playwright session pool of the current API (core/session_manager.py).
 *
 * The manager keeps its sessions in an insertion-ordered dict keyed by
 * session id; here that dict is a `seq<Session>` with distinct ids, in
 * insertion order. A session's browser is an opaque handle of which only
 * `is_connected()` matters. Time is a parameter `now` in seconds; the uuid
 * drawn for a new session and the success of each browser launch are
 * supplied by the caller.
 */
module SessionManager {
  import opened Wrappers

  type SessionId = string

  /** A session older than this (30 minutes) is invalid. */
  const MaxAgeSeconds: int := 1800
  /** A session unused for longer than this (10 minutes) is invalid. */
  const MaxIdleSeconds: int := 600
  /** `_create_session` tries to launch a browser at most this many times. */
  const CreateAttempts: nat := 3

  /** What `browser.is_connected()` does: answers true, answers false, or raises. */
  datatype Browser = Connected | Disconnected | Unresponsive

  datatype Session = Session(
    id: SessionId,
    browser: Browser,
    createdAt: int,
    lastUsed: int,
    busy: bool,
    loggedIn: bool)

  /**
   * `_is_session_valid`: too old, or idle too long, gives false; otherwise the
   * browser must answer that it is connected (an exception also gives false).
   */
  predicate IsValid(s: Session, now: int) {
    if now - s.createdAt > MaxAgeSeconds then false
    else if now - s.lastUsed > MaxIdleSeconds then false
    else s.browser == Connected
  }

  function Ids(ss: seq<Session>): (r: seq<SessionId>)
    ensures |r| == |ss| && forall i :: 0 <= i < |ss| ==> r[i] == ss[i].id
  {
    if ss == [] then [] else [ss[0].id] + Ids(ss[1..])
  }

  predicate DistinctIds(ss: seq<Session>) {
    forall i, j :: 0 <= i < j < |ss| ==> ss[i].id != ss[j].id
  }

  /** A session the lease may hand out: not busy and valid. */
  predicate Reusable(s: Session, now: int) {
    !s.busy && IsValid(s, now)
  }

  /** Index of the first reusable session in dict order, or -1. */
  function FirstReusable(ss: seq<Session>, now: int): (r: int)
    ensures -1 <= r < |ss|
    ensures r >= 0 ==> Reusable(ss[r], now) && forall j :: 0 <= j < r ==> !Reusable(ss[j], now)
    ensures r == -1 <==> forall j :: 0 <= j < |ss| ==> !Reusable(ss[j], now)
  {
    if ss == [] then -1
    else if Reusable(ss[0], now) then 0
    else
      var k := FirstReusable(ss[1..], now);
      if k < 0 then -1 else k + 1
  }

  /** The first success in a sequence of attempts. */
  function FirstSome(xs: seq<Option<(SessionId, Browser)>>): (r: Option<(SessionId, Browser)>)
    ensures r.Some? ==> r in xs
    ensures r.None? <==> forall i :: 0 <= i < |xs| ==> xs[i].None?
  {
    if xs == [] then None
    else if xs[0].Some? then xs[0]
    else FirstSome(xs[1..])
  }

  lemma {:induction false} FirstSomeAt(xs: seq<Option<(SessionId, Browser)>>, k: nat)
    requires k < |xs| && xs[k].Some?
    requires forall i :: 0 <= i < k ==> xs[i].None?
    ensures FirstSome(xs) == xs[k]
  {
    if k > 0 {
      FirstSomeAt(xs[1..], k - 1);
    }
  }

  /** The first launch among the first three attempts that succeeded, with the uuid drawn for it. */
  function FirstLaunched(attempts: seq<Option<(SessionId, Browser)>>): Option<(SessionId, Browser)> {
    FirstSome(attempts[..if |attempts| < CreateAttempts then |attempts| else CreateAttempts])
  }

  /** A freshly created session: created and last used now, leased, not logged in. */
  function NewSession(launched: (SessionId, Browser), now: int): Session {
    Session(launched.0, launched.1, now, now, true, false)
  }

  datatype LeaseResult = Reused(id: SessionId) | Created(id: SessionId) | PoolFull | StartupFailed

  /**
   * `_get_session_internal` once Playwright is up: reuse the first idle and
   * valid session, else create one while under `max_browsers`, else nothing.
   */
  function Lease(ss: seq<Session>, now: int, maxBrowsers: nat, launched: Option<(SessionId, Browser)>): (r: (seq<Session>, LeaseResult))
    ensures |ss| <= maxBrowsers ==> |r.0| <= maxBrowsers
    ensures r.1.Reused? ==>
      var i := FirstReusable(ss, now);
      && 0 <= i && r.1.id == ss[i].id && !ss[i].busy && IsValid(ss[i], now)
      && r.0 == ss[i := ss[i].(busy := true, lastUsed := now)]
    ensures r.1.Created? ==>
      && FirstReusable(ss, now) == -1 && |ss| < maxBrowsers && launched.Some?
      && r.1.id == launched.value.0
      && r.0 == ss + [NewSession(launched.value, now)]
    ensures r.1.PoolFull? <==> FirstReusable(ss, now) == -1 && (|ss| >= maxBrowsers || launched.None?)
    ensures r.1.PoolFull? ==> r.0 == ss
    ensures !r.1.StartupFailed?
  {
    var i := FirstReusable(ss, now);
    if i >= 0 then
      (ss[i := ss[i].(busy := true, lastUsed := now)], Reused(ss[i].id))
    else if |ss| < maxBrowsers && launched.Some? then
      (ss + [NewSession(launched.value, now)], Created(launched.value.0))
    else (ss, PoolFull)
  }

  /**
   * A lease keeps the ids distinct when the launched browser's uuid is new;
   * the leased id is in the pool, and the only id it adds is the created one.
   */
  lemma LeaseIds(ss: seq<Session>, now: int, maxBrowsers: nat, launched: Option<(SessionId, Browser)>)
    requires DistinctIds(ss)
    requires launched.Some? ==> launched.value.0 !in Ids(ss)
    ensures var r := Lease(ss, now, maxBrowsers, launched);
      && DistinctIds(r.0)
      && (r.1.Reused? || r.1.Created? ==> r.1.id in Ids(r.0))
      && (forall id :: id in Ids(r.0) ==> id in Ids(ss) || (r.1.Created? && id == r.1.id))
  {
    var i := FirstReusable(ss, now);
    var ss' := Lease(ss, now, maxBrowsers, launched).0;
    if i >= 0 {
      assert forall j :: 0 <= j < |ss'| ==> ss'[j].id == ss[j].id;
      assert Ids(ss')[i] == ss[i].id;
      assert Ids(ss') == Ids(ss);
    } else if |ss| < maxBrowsers && launched.Some? {
      assert forall j :: 0 <= j < |ss| ==> ss[j].id == Ids(ss)[j];
      assert Ids(ss')[|ss|] == launched.value.0;
      assert Ids(ss') == Ids(ss) + [launched.value.0];
    }
  }

  /** Index of the session with this id, or -1. */
  function IndexOfSession(ss: seq<Session>, id: SessionId): (r: int)
    ensures -1 <= r < |ss|
    ensures r >= 0 ==> ss[r].id == id
    ensures r == -1 <==> id !in Ids(ss)
  {
    if ss == [] then -1
    else if ss[0].id == id then 0
    else
      var k := IndexOfSession(ss[1..], id);
      if k < 0 then -1 else k + 1
  }

  /**
   * `release_session`: for a pool member, clear busy and stamp last_used; the
   * session is not re-validated. Unknown ids and `None` change nothing.
   */
  function Release(ss: seq<Session>, target: Option<SessionId>, now: int): (r: seq<Session>)
    ensures |r| == |ss| && Ids(r) == Ids(ss)
    ensures target.None? || target.value !in Ids(ss) ==> r == ss
    ensures target.Some? && target.value in Ids(ss) ==>
      var i := IndexOfSession(ss, target.value);
      r == ss[i := ss[i].(busy := false, lastUsed := now)]
  {
    if target.None? then ss
    else
      var i := IndexOfSession(ss, target.value);
      if i < 0 then ss
      else
        var r := ss[i := ss[i].(busy := false, lastUsed := now)];
        assert Ids(r) == Ids(ss);
        r
  }

  /** A released pool member stays in the pool and is no longer busy. */
  lemma ReleasedIsIdle(ss: seq<Session>, id: SessionId, now: int)
    requires DistinctIds(ss) && id in Ids(ss)
    ensures var r := Release(ss, Some(id), now);
            id in Ids(r) && !r[IndexOfSession(r, id)].busy
  {
    var r := Release(ss, Some(id), now);
    var i := IndexOfSession(ss, id);
    assert Ids(r) == Ids(ss);
    var j := IndexOfSession(r, id);
    assert r[j].id == id && ss[j].id == id && ss[i].id == id;
    assert j == i;
  }

  /** The sessions whose ids are not in `gone`, in their order. */
  function Without(ss: seq<Session>, gone: set<SessionId>): (r: seq<Session>)
    ensures |r| <= |ss|
    ensures forall s :: s in r <==> s in ss && s.id !in gone
  {
    if ss == [] then []
    else if ss[0].id in gone then Without(ss[1..], gone)
    else [ss[0]] + Without(ss[1..], gone)
  }

  lemma {:induction false} WithoutKeepsDistinct(ss: seq<Session>, gone: set<SessionId>)
    requires DistinctIds(ss)
    ensures DistinctIds(Without(ss, gone))
  {
    if ss != [] {
      WithoutKeepsDistinct(ss[1..], gone);
      var rest := Without(ss[1..], gone);
      forall s | s in rest ensures s.id != ss[0].id {
        assert s in ss[1..];
      }
    }
  }

  lemma {:induction false} WithoutNothing(ss: seq<Session>)
    ensures Without(ss, {}) == ss
  {
    if ss != [] {
      WithoutNothing(ss[1..]);
    }
  }

  lemma {:induction false} WithoutTwice(ss: seq<Session>, gone: set<SessionId>, more: set<SessionId>)
    ensures Without(Without(ss, gone), more) == Without(ss, gone + more)
  {
    if ss != [] {
      WithoutTwice(ss[1..], gone, more);
    }
  }

  /** Deleting one id from the dict is `Without` that id. */
  function RemoveSession(ss: seq<Session>, id: SessionId): (r: seq<Session>)
    ensures r == Without(ss, {id})
  {
    if ss == [] then []
    else if ss[0].id == id then RemoveSession(ss[1..], id)
    else [ss[0]] + RemoveSession(ss[1..], id)
  }

  /** The ids `_cleanup_invalid_sessions` manages to close: invalid ones whose teardown does not raise. */
  function ClosedByCleanup(ss: seq<Session>, now: int, teardownFails: set<SessionId>): set<SessionId> {
    set s | s in ss && !IsValid(s, now) && s.id !in teardownFails :: s.id
  }

  /** The ids among `ids` whose teardown does not raise. */
  function ClosableIds(ids: seq<SessionId>, teardownFails: set<SessionId>): (r: set<SessionId>)
    ensures forall id :: id in r <==> id in ids && id !in teardownFails
  {
    if ids == [] then {}
    else
      var last := ids[|ids| - 1];
      ClosableIds(ids[..|ids| - 1], teardownFails) + (if last in teardownFails then {} else {last})
  }

  function CountBusy(ss: seq<Session>): (r: nat)
    ensures r <= |ss|
  {
    if ss == [] then 0 else (if ss[0].busy then 1 else 0) + CountBusy(ss[1..])
  }

  function CountLoggedIn(ss: seq<Session>): (r: nat)
    ensures r <= |ss|
  {
    if ss == [] then 0 else (if ss[0].loggedIn then 1 else 0) + CountLoggedIn(ss[1..])
  }

  lemma {:induction false} CountBusyAppend(ss: seq<Session>, s: Session)
    ensures CountBusy(ss + [s]) == CountBusy(ss) + (if s.busy then 1 else 0)
  {
    if ss != [] {
      assert (ss + [s])[1..] == ss[1..] + [s];
      CountBusyAppend(ss[1..], s);
    }
  }

  lemma {:induction false} CountLoggedInAppend(ss: seq<Session>, s: Session)
    ensures CountLoggedIn(ss + [s]) == CountLoggedIn(ss) + (if s.loggedIn then 1 else 0)
  {
    if ss != [] {
      assert (ss + [s])[1..] == ss[1..] + [s];
      CountLoggedInAppend(ss[1..], s);
    }
  }

  datatype Stats = Stats(total: nat, busy: nat, available: nat, loggedIn: nat, max: nat)

  /** What the `get_session` context manager did. */
  datatype Usage = NoSession | Used(id: SessionId, bodyRaised: bool)

  class SessionManager {
    var sessions: seq<Session>
    /** Whether Playwright has been started (`self.playwright` and `self.browser_type` are set). */
    var ready: bool
    /** `settings.max_browsers` */
    const maxBrowsers: nat

    ghost predicate Valid()
      reads this
    {
      DistinctIds(sessions) && |sessions| <= maxBrowsers
    }

    constructor (maxBrowsers: nat)
      ensures Valid() && sessions == [] && !ready && this.maxBrowsers == maxBrowsers
    {
      this.maxBrowsers := maxBrowsers;
      sessions := [];
      ready := false;
    }

    /** `_create_session`: up to three launches; each draws its own uuid. */
    method CreateSession(attempts: seq<Option<(SessionId, Browser)>>) returns (launched: Option<(SessionId, Browser)>)
      ensures launched == FirstLaunched(attempts)
      ensures launched.Some? ==> launched in attempts
    {
      var tentativa := 0;
      while tentativa < CreateAttempts
        invariant 0 <= tentativa <= CreateAttempts
        invariant forall i :: 0 <= i < tentativa && i < |attempts| ==> attempts[i].None?
      {
        if tentativa < |attempts| && attempts[tentativa].Some? {
          launched := attempts[tentativa];
          FirstSomeAt(attempts[..if |attempts| < CreateAttempts then |attempts| else CreateAttempts], tentativa);
          return;
        }
        tentativa := tentativa + 1;
      }
      launched := None;
      assert FirstLaunched(attempts).None?;
    }

    /** The scan of the sessions in dict order for the first one neither busy nor expired. */
    method FindReusable(now: int) returns (i: int)
      ensures i == FirstReusable(sessions, now)
    {
      i := 0;
      while i < |sessions|
        invariant 0 <= i <= |sessions|
        invariant forall j :: 0 <= j < i ==> !Reusable(sessions[j], now)
      {
        if !sessions[i].busy && IsValid(sessions[i], now) {
          return;
        }
        i := i + 1;
      }
      i := -1;
    }

    /**
     * `_get_session_internal`: start Playwright first if needed (giving
     * nothing when that fails), then lease as `Lease` says.
     */
    method GetSession(now: int, startupOk: bool, attempts: seq<Option<(SessionId, Browser)>>) returns (result: LeaseResult)
      requires Valid()
      requires forall a :: a in attempts && a.Some? ==> a.value.0 !in Ids(sessions)
      modifies this
      ensures Valid()
      ensures !old(ready) && !startupOk ==> result == StartupFailed && sessions == old(sessions) && !ready
      ensures old(ready) || startupOk ==>
        ready && (sessions, result) == Lease(old(sessions), now, maxBrowsers, FirstLaunched(attempts))
      ensures result.Reused? || result.Created? ==> result.id in Ids(sessions)
    {
      if !ready {
        if !startupOk {
          return StartupFailed;
        }
        ready := true;
      }
      ghost var first := FirstLaunched(attempts);
      assert first.Some? ==> first in attempts;
      LeaseIds(sessions, now, maxBrowsers, first);
      var i := FindReusable(now);
      if i >= 0 {
        var id := sessions[i].id;
        sessions := sessions[i := sessions[i].(busy := true, lastUsed := now)];
        return Reused(id);
      }
      var launched := None;
      if |sessions| < maxBrowsers {
        launched := CreateSession(attempts);
        if launched.Some? {
          sessions := sessions + [NewSession(launched.value, now)];
          return Created(launched.value.0);
        }
      }
      ghost var expected := FirstLaunched(attempts);
      assert |sessions| < maxBrowsers ==> launched == expected;
      result := PoolFull;
    }

    /** `release_session`, given the id of the session or of the Session object passed. */
    method ReleaseSession(target: Option<SessionId>, now: int)
      requires Valid()
      modifies this
      ensures Valid() && ready == old(ready)
      ensures sessions == Release(old(sessions), target, now)
    {
      if target.None? {
        return;
      }
      var i := IndexOfSession(sessions, target.value);
      if i >= 0 {
        sessions := sessions[i := sessions[i].(busy := false, lastUsed := now)];
        assert Ids(sessions) == Ids(old(sessions));
      }
    }

    /**
     * `close_session`: for a pool member, tear down context and browser and
     * delete it; when the teardown raises, the exception is logged and the
     * session stays in the dict.
     */
    method CloseSession(id: SessionId, teardownOk: bool)
      requires Valid()
      modifies this
      ensures Valid() && ready == old(ready)
      ensures sessions == if teardownOk then Without(old(sessions), {id}) else old(sessions)
    {
      if teardownOk {
        WithoutKeepsDistinct(sessions, {id});
        sessions := RemoveSession(sessions, id);
      }
    }

    /** The first loop of `_cleanup_invalid_sessions`: the ids of every invalid session, busy or not. */
    method InvalidSessionIds(now: int) returns (invalid: seq<SessionId>)
      ensures forall id :: id in invalid <==> exists s :: s in sessions && !IsValid(s, now) && s.id == id
    {
      invalid := [];
      var i := 0;
      while i < |sessions|
        invariant 0 <= i <= |sessions|
        invariant forall id :: id in invalid <==> exists j :: 0 <= j < i && !IsValid(sessions[j], now) && sessions[j].id == id
      {
        if !IsValid(sessions[i], now) {
          invalid := invalid + [sessions[i].id];
        }
        i := i + 1;
      }
      forall id | id in invalid ensures exists s :: s in sessions && !IsValid(s, now) && s.id == id {
        var j :| 0 <= j < i && !IsValid(sessions[j], now) && sessions[j].id == id;
        assert sessions[j] in sessions;
      }
    }

    /** The second loop of `_cleanup_invalid_sessions`: `close_session` on each collected id. */
    method CloseEach(ids: seq<SessionId>, teardownFails: set<SessionId>)
      requires Valid()
      modifies this
      ensures Valid() && ready == old(ready)
      ensures sessions == Without(old(sessions), ClosableIds(ids, teardownFails))
    {
      WithoutNothing(sessions);
      var k := 0;
      while k < |ids|
        invariant 0 <= k <= |ids|
        invariant Valid() && ready == old(ready)
        invariant sessions == Without(old(sessions), ClosableIds(ids[..k], teardownFails))
      {
        var id := ids[k];
        ghost var before := ClosableIds(ids[..k], teardownFails);
        CloseSession(id, id !in teardownFails);
        assert ids[..k + 1][..k] == ids[..k];
        if id !in teardownFails {
          WithoutTwice(old(sessions), before, {id});
        } else {
          assert ClosableIds(ids[..k + 1], teardownFails) == before;
        }
        k := k + 1;
      }
      assert ids[..k] == ids;
    }

    /**
     * `_cleanup_invalid_sessions`: collect every invalid session, busy or
     * not, then close each one.
     */
    method CleanupInvalidSessions(now: int, teardownFails: set<SessionId>)
      requires Valid()
      modifies this
      ensures Valid() && ready == old(ready)
      ensures sessions == Without(old(sessions), ClosedByCleanup(old(sessions), now, teardownFails))
    {
      var invalid := InvalidSessionIds(now);
      assert ClosableIds(invalid, teardownFails) == ClosedByCleanup(sessions, now, teardownFails);
      CloseEach(invalid, teardownFails);
    }

    /** `get_stats`: counts over the sessions; available is total minus busy. */
    method GetStats() returns (stats: Stats)
      ensures stats.total == |sessions| && stats.busy == CountBusy(sessions)
      ensures stats.busy <= stats.total && stats.available == stats.total - stats.busy
      ensures stats.loggedIn == CountLoggedIn(sessions) && stats.max == maxBrowsers
    {
      var busy := 0;
      var loggedIn := 0;
      var i := 0;
      while i < |sessions|
        invariant 0 <= i <= |sessions|
        invariant busy == CountBusy(sessions[..i]) && loggedIn == CountLoggedIn(sessions[..i])
      {
        CountBusyAppend(sessions[..i], sessions[i]);
        CountLoggedInAppend(sessions[..i], sessions[i]);
        assert sessions[..i + 1] == sessions[..i] + [sessions[i]];
        if sessions[i].busy {
          busy := busy + 1;
        }
        if sessions[i].loggedIn {
          loggedIn := loggedIn + 1;
        }
        i := i + 1;
      }
      assert sessions[..i] == sessions;
      stats := Stats(|sessions|, busy, |sessions| - busy, loggedIn, maxBrowsers);
    }

    /**
     * The `get_session` context manager around a body: no session raises
     * before the body runs; otherwise the session is released whether the
     * body raised or not.
     */
    method UseSession(now: int, later: int, startupOk: bool, attempts: seq<Option<(SessionId, Browser)>>, bodyRaises: bool)
      returns (usage: Usage)
      requires Valid()
      requires forall a :: a in attempts && a.Some? ==> a.value.0 !in Ids(sessions)
      modifies this
      ensures Valid()
      ensures ready == (old(ready) || startupOk)
      ensures usage.NoSession? ==> sessions == old(sessions)
      ensures
        var (leased, result) := Lease(old(sessions), now, maxBrowsers, FirstLaunched(attempts));
        && (usage.NoSession? <==> !ready || result.PoolFull?)
        && (usage.Used? ==>
              && usage.id == result.id
              && sessions == Release(leased, Some(usage.id), later))
      ensures usage.Used? ==>
        && usage.bodyRaised == bodyRaises
        && usage.id in Ids(sessions)
        && !sessions[IndexOfSession(sessions, usage.id)].busy
    {
      var leased := GetSession(now, startupOk, attempts);
      if !(leased.Reused? || leased.Created?) {
        return NoSession;
      }
      var id := leased.id;
      ReleasedIsIdle(sessions, id, later);
      ReleaseSession(Some(id), later);
      usage := Used(id, bodyRaises);
    }
  }

  // ---------------------------------------------------------------------
  // Properties of the pool
  // ---------------------------------------------------------------------

  /** The cleanup keeps every valid session as it was and removes every invalid one it can close. */
  lemma CleanupEvictsExactlyInvalid(ss: seq<Session>, now: int, teardownFails: set<SessionId>)
    requires DistinctIds(ss)
    ensures
      var kept := Without(ss, ClosedByCleanup(ss, now, teardownFails));
      && (forall s :: s in ss && IsValid(s, now) ==> s in kept)
      && (forall s :: s in ss && !IsValid(s, now) && s.id !in teardownFails ==> s !in kept)
      && (forall s :: s in kept ==> IsValid(s, now) || s.id in teardownFails)
  {
  }

  predicate FreshLaunches(ss: seq<Session>, launches: seq<(SessionId, Browser)>) {
    && (forall i :: 0 <= i < |launches| ==> launches[i].0 !in Ids(ss))
    && (forall i, j :: 0 <= i < j < |launches| ==> launches[i].0 != launches[j].0)
  }

  /** Lease after lease with no release in between, each launch succeeding with a fresh uuid. */
  function LeaseRepeatedly(ss: seq<Session>, now: int, maxBrowsers: nat, launches: seq<(SessionId, Browser)>): (r: seq<LeaseResult>)
    requires DistinctIds(ss) && FreshLaunches(ss, launches)
    ensures |r| == |launches|
    decreases |launches|
  {
    if launches == [] then []
    else
      var (ss', first) := Lease(ss, now, maxBrowsers, Some(launches[0]));
      FreshAfterLease(ss, now, maxBrowsers, launches);
      [first] + LeaseRepeatedly(ss', now, maxBrowsers, launches[1..])
  }

  /** The launches after the first stay fresh for the pool the first lease leaves. */
  lemma FreshAfterLease(ss: seq<Session>, now: int, maxBrowsers: nat, launches: seq<(SessionId, Browser)>)
    requires DistinctIds(ss) && FreshLaunches(ss, launches) && launches != []
    ensures var ss' := Lease(ss, now, maxBrowsers, Some(launches[0])).0;
            DistinctIds(ss') && FreshLaunches(ss', launches[1..])
  {
    LeaseIds(ss, now, maxBrowsers, Some(launches[0]));
    var ss' := Lease(ss, now, maxBrowsers, Some(launches[0])).0;
    forall i | 0 <= i < |launches[1..]| ensures launches[1..][i].0 !in Ids(ss') {
      assert launches[1..][i] == launches[i + 1];
    }
  }

  /**
   * With every session busy and no release, leases create sessions until
   * the pool holds `max_browsers`; every later lease gets nothing.
   */
  lemma {:induction false} LeasingWithoutReleaseExhausts(ss: seq<Session>, now: int, maxBrowsers: nat,
                                                         launches: seq<(SessionId, Browser)>, i: nat)
    requires DistinctIds(ss) && FreshLaunches(ss, launches)
    requires forall s :: s in ss ==> s.busy
    requires |ss| <= maxBrowsers
    requires i < |launches|
    ensures var rs := LeaseRepeatedly(ss, now, maxBrowsers, launches);
            && (rs[i].Created? <==> |ss| + i < maxBrowsers)
            && (rs[i].PoolFull? <==> |ss| + i >= maxBrowsers)
    decreases i
  {
    var (ss', first) := Lease(ss, now, maxBrowsers, Some(launches[0]));
    assert FirstReusable(ss, now) == -1;
    FreshAfterLease(ss, now, maxBrowsers, launches);
    var rs := LeaseRepeatedly(ss, now, maxBrowsers, launches);
    var rest := LeaseRepeatedly(ss', now, maxBrowsers, launches[1..]);
    assert rs == [first] + rest;
    if i == 0 {
      assert !first.Reused?;
    } else {
      forall s | s in ss' ensures s.busy {
        if |ss| < maxBrowsers {
          assert ss' == ss + [NewSession(launches[0], now)];
        }
      }
      assert |ss'| == if |ss| < maxBrowsers then |ss| + 1 else |ss|;
      LeasingWithoutReleaseExhausts(ss', now, maxBrowsers, launches[1..], i - 1);
      assert rs[i] == rest[i - 1];
    }
  }

  /**
   * A session idle for more than ten minutes is closed by the cleanup (when
   * its teardown succeeds), and no later lease can hand out its id again.
   */
  lemma IdleSessionIsReplaced(ss: seq<Session>, k: nat, now: int, teardownFails: set<SessionId>, maxBrowsers: nat, launched: Option<(SessionId, Browser)>)
    requires DistinctIds(ss) && k < |ss|
    requires now - ss[k].lastUsed > MaxIdleSeconds && ss[k].id !in teardownFails
    requires launched.Some? ==> launched.value.0 !in Ids(ss)
    ensures
      var kept := Without(ss, ClosedByCleanup(ss, now, teardownFails));
      && ss[k].id !in Ids(kept)
      && DistinctIds(kept)
      && (launched.Some? ==> launched.value.0 !in Ids(kept))
      && var leased := Lease(kept, now, maxBrowsers, launched).1;
         (leased.Reused? || leased.Created?) ==> leased.id != ss[k].id
  {
    var closed := ClosedByCleanup(ss, now, teardownFails);
    var kept := Without(ss, closed);
    assert ss[k] in ss;
    assert ss[k].id in closed;
    WithoutKeepsDistinct(ss, closed);
    WithoutDropsId(ss, closed, ss[k].id);
    if launched.Some? {
      WithoutKeepsAbsent(ss, closed, launched.value.0);
    }
    LeaseIds(kept, now, maxBrowsers, launched);
  }

  /** A removed id is gone from the pool. */
  lemma WithoutDropsId(ss: seq<Session>, gone: set<SessionId>, id: SessionId)
    requires id in gone
    ensures id !in Ids(Without(ss, gone))
  {
    var kept := Without(ss, gone);
    forall i | 0 <= i < |kept| ensures kept[i].id != id {
      assert kept[i] in kept;
    }
  }

  /** Removal adds no id. */
  lemma WithoutKeepsAbsent(ss: seq<Session>, gone: set<SessionId>, id: SessionId)
    requires id !in Ids(ss)
    ensures id !in Ids(Without(ss, gone))
  {
    var kept := Without(ss, gone);
    forall i | 0 <= i < |kept| ensures kept[i].id != id {
      assert kept[i] in kept;
      var j :| 0 <= j < |ss| && ss[j] == kept[i];
      assert Ids(ss)[j] == kept[i].id;
    }
  }
}
