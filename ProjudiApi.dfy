/**
 * The session supervisor of the legacy API (`ProjudiAPI`): login detection,
 * the fallback escalation, the three-try robust operation, the automatic
 * refresh, pool maintenance, the health-checked lease, the five-attempt
 * search loop, and the list shaping of the navigation extractor.
 *
 * Browser work (page loads, logins, searches, refreshes) is not modelled;
 * each call site receives what that work returned as a parameter. All
 * steps of one call happen at the same clock reading `now`.
 */
module ProjudiApi {
  import opened Wrappers
  import opened JsonValue
  import opened StringUtil
  import opened SessionPool
  import Sorting
  import Dedup

  function Min(a: int, b: int): int {
    if a <= b then a else b
  }

  function Max(a: int, b: int): int {
    if a <= b then b else a
  }

  // ---------------------------------------------------------------------
  // Login detection and relogin
  // ---------------------------------------------------------------------

  /** What the browser shows: the current URL and the page source. */
  datatype Page = Page(url: string, source: string)

  /** The page carries one of the login form's field labels. */
  predicate HasLoginFields(source: string) {
    Contains(source, "Usuario") || Contains(source, "Senha")
  }

  /**
   * `_session_logged_out`: a login field label in the source, "login" or
   * "usuario" in the lower-cased URL, or "entrar"/"acessar" in the
   * lower-cased source; an unreadable page (`None`) counts as logged out.
   */
  function SessionLoggedOut(page: Option<Page>): (r: bool)
    ensures page.None? ==> r
    ensures page.Some? && HasLoginFields(page.value.source) ==> r
    ensures !r ==> page.Some? && !HasLoginFields(page.value.source)
                   && !Contains(Lower(page.value.url), "login") && !Contains(Lower(page.value.url), "usuario")
  {
    match page
    case None => true
    case Some(p) =>
      HasLoginFields(p.source)
      || Contains(Lower(p.url), "login") || Contains(Lower(p.url), "usuario")
      || Contains(Lower(p.source), "entrar") || Contains(Lower(p.source), "acessar")
  }

  /**
   * `_relogin_session`, given the log-on page it loads (`None` when loading
   * raised) and the outcome of a full login: a page whose source contains
   * neither "Usuario" nor "Senha" means the session is still logged in.
   */
  function ReloginSession(logOnPage: Option<Page>, loginOk: bool): (r: bool)
    ensures logOnPage.None? ==> !r
    ensures logOnPage.Some? ==> (r <==> !HasLoginFields(logOnPage.value.source) || loginOk)
  {
    match logOnPage
    case None => false
    case Some(p) => if !HasLoginFields(p.source) then true else loginOk
  }

  /**
   * A log-on page the logout test accepts as logged in needs no login:
   * relogin succeeds whatever the login would have done.
   */
  lemma LoggedInPageNeedsNoLogin(logOnPage: Option<Page>, loginOk: bool)
    requires !SessionLoggedOut(logOnPage)
    ensures ReloginSession(logOnPage, loginOk)
  {
  }

  /**
   * `_fallback_strategy`: a logged-out session is as good as its relogin;
   * otherwise an unhealthy session is as good as its two-try refresh; a
   * healthy, logged-in session passes.
   */
  function FallbackStrategy(loggedOut: bool, reloginOk: bool, healthy: bool, refreshOk: bool): (r: bool)
    ensures loggedOut ==> (r <==> reloginOk)
    ensures !loggedOut ==> (r <==> healthy || refreshOk)
  {
    if loggedOut then reloginOk
    else if !healthy && !refreshOk then false
    else true
  }

  // ---------------------------------------------------------------------
  // The robust operation: three tries, fallback after the first two failures
  // ---------------------------------------------------------------------

  const RobustAttempts: nat := 3

  /** What the operation returned on try k: a value, or `None` when it raised (or was never scripted). */
  function OpAt(ops: seq<Option<Value>>, k: nat): Option<Value> {
    if k < |ops| then ops[k] else None
  }

  /** A try succeeds when it returned a truthy value; a falsy value fails like an exception. */
  predicate Succeeds(o: Option<Value>) {
    o.Some? && Truthy(o.value)
  }

  /**
   * `_robust_operation`: the value returned and how many tries were made.
   * The result is the first truthy value among at most three tries, or
   * False after three failures.
   */
  function RobustOutcome(ops: seq<Option<Value>>): (r: (Value, nat))
    ensures 1 <= r.1 <= RobustAttempts
    ensures forall j :: 0 <= j < r.1 - 1 ==> !Succeeds(OpAt(ops, j))
    ensures Truthy(r.0) ==> OpAt(ops, r.1 - 1) == Some(r.0)
    ensures !Truthy(r.0) ==> r == (JBool(false), RobustAttempts) && !Succeeds(OpAt(ops, 2))
  {
    if Succeeds(OpAt(ops, 0)) then (OpAt(ops, 0).value, 1)
    else if Succeeds(OpAt(ops, 1)) then (OpAt(ops, 1).value, 2)
    else if Succeeds(OpAt(ops, 2)) then (OpAt(ops, 2).value, 3)
    else (JBool(false), 3)
  }

  /** A falsy return, such as an empty list, is treated exactly like an exception. */
  lemma FalsyResultIsFailure(ops: seq<Option<Value>>, k: nat, v: Value)
    requires k < |ops| && !Truthy(v)
    ensures RobustOutcome(ops[k := Some(v)]) == RobustOutcome(ops[k := None])
  {
    var x, y := ops[k := Some(v)], ops[k := None];
    assert Succeeds(OpAt(x, 0)) == Succeeds(OpAt(y, 0));
    assert Succeeds(OpAt(x, 1)) == Succeeds(OpAt(y, 1));
    assert Succeeds(OpAt(x, 2)) == Succeeds(OpAt(y, 2));
  }

  /** Tries beyond the third never matter. */
  lemma RobustIgnoresLaterTries(ops: seq<Option<Value>>, more: seq<Option<Value>>)
    requires |ops| >= RobustAttempts
    ensures RobustOutcome(ops + more) == RobustOutcome(ops)
  {
    assert forall j: nat :: j < 3 ==> OpAt(ops + more, j) == OpAt(ops, j);
  }

  /** The fallback's k-th outcome; unscripted fallbacks fail. */
  function FallbackAt(fallbacks: seq<bool>, k: nat): bool {
    k < |fallbacks| && fallbacks[k]
  }

  /**
   * `_robust_operation`'s loop: up to three tries of the operation; after a
   * failed first or second try the fallback runs, whatever it returns.
   * `fallbacks` holds the fallback outcomes in call order.
   */
  method RobustOperation(ops: seq<Option<Value>>, fallbacks: seq<bool>)
    returns (result: Value, calls: nat, fallbackCalls: nat)
    ensures (result, calls) == RobustOutcome(ops)
    ensures fallbackCalls == Min(if Truthy(result) then calls - 1 else calls, RobustAttempts - 1)
  {
    var attempt: nat := 0;
    calls, fallbackCalls := 0, 0;
    while attempt < RobustAttempts
      invariant attempt <= RobustAttempts
      invariant calls == attempt && fallbackCalls == Min(attempt, RobustAttempts - 1)
      invariant forall j :: 0 <= j < attempt ==> !Succeeds(OpAt(ops, j))
    {
      var outcome := OpAt(ops, attempt);
      calls := calls + 1;
      if Succeeds(outcome) {
        return outcome.value, calls, fallbackCalls;
      }
      if attempt < RobustAttempts - 1 {
        var recovered := FallbackAt(fallbacks, fallbackCalls);
        fallbackCalls := fallbackCalls + 1;
        if !recovered {
          attempt := attempt + 1;
          continue;
        }
      }
      attempt := attempt + 1;
    }
    return JBool(false), calls, fallbackCalls;
  }

  // ---------------------------------------------------------------------
  // Automatic refresh
  // ---------------------------------------------------------------------

  /**
   * One refresh attempt: whether the page source after the plain reload
   * lacks "Usuario" (tried on the first attempt only), whether the new browser
   * started, and the outcomes of the login and of the login after clearing
   * cookies.
   */
  datatype RefreshAttempt = RefreshAttempt(reloadOk: bool, driverOk: bool, loginOk: bool, retryLoginOk: bool)

  function RefreshAt(attempts: seq<RefreshAttempt>, k: nat): RefreshAttempt {
    if k < |attempts| then attempts[k] else RefreshAttempt(false, false, false, false)
  }

  /** An attempt that restarts the browser and logs in on either try. */
  predicate Restores(a: RefreshAttempt) {
    a.driverOk && (a.loginOk || a.retryLoginOk)
  }

  /** `_refresh_session_auto` succeeds: the first reload worked, or some attempt restored the session. */
  predicate RefreshWorks(attempts: seq<RefreshAttempt>, maxRetries: int) {
    (0 < maxRetries && RefreshAt(attempts, 0).reloadOk)
    || exists k: nat :: k < maxRetries && Restores(RefreshAt(attempts, k))
  }

  /**
   * `_refresh_session_auto`: up to `maxRetries` attempts; the first tries a
   * plain reload, then every attempt restarts the browser (an attempt whose
   * browser does not start goes on to the next) and logs in, clearing
   * cookies and logging in once more if the first login fails. `tries` is
   * the number of attempts made.
   */
  method RefreshSessionAuto(attempts: seq<RefreshAttempt>, maxRetries: int) returns (ok: bool, tries: nat)
    ensures ok <==> RefreshWorks(attempts, maxRetries)
    ensures tries <= Max(maxRetries, 0)
    ensures ok ==> 1 <= tries && forall j: nat :: j < tries - 1 ==> !Restores(RefreshAt(attempts, j))
    ensures ok ==> (tries == 1 && RefreshAt(attempts, 0).reloadOk) || Restores(RefreshAt(attempts, tries - 1))
    ensures !ok ==> tries == Max(maxRetries, 0)
  {
    tries := 0;
    while tries < maxRetries
      invariant tries <= Max(maxRetries, 0)
      invariant tries > 0 ==> !RefreshAt(attempts, 0).reloadOk
      invariant forall j: nat :: j < tries ==> !Restores(RefreshAt(attempts, j))
      decreases maxRetries - tries
    {
      var a := RefreshAt(attempts, tries);
      tries := tries + 1;
      if tries == 1 && a.reloadOk {
        return true, tries;
      }
      if !a.driverOk {
        continue;
      }
      var loggedIn := a.loginOk;
      if !loggedIn {
        loggedIn := a.retryLoginOk;
      }
      if loggedIn {
        return true, tries;
      }
    }
    return false, tries;
  }

  // ---------------------------------------------------------------------
  // Pool maintenance
  // ---------------------------------------------------------------------

  const StaleSeconds: int := 1200
  const RefreshIdleSeconds: int := 600

  /**
   * The sessions `_maintain_session_pool` removes: unhealthy ones, ones idle
   * more than 1200 seconds, and ones idle more than 600 seconds whose
   * preventive two-try refresh fails (`refreshed` holds the numbers whose
   * refresh would succeed).
   */
  predicate Doomed(s: PooledSession, now: int, unhealthy: set<nat>, refreshed: set<nat>) {
    || s.number in unhealthy
    || now - s.lastUsed > StaleSeconds
    || (now - s.lastUsed > RefreshIdleSeconds && s.number !in refreshed)
  }

  /** The numbers of the doomed sessions of `ss`. */
  function DoomedNumbers(ss: seq<PooledSession>, now: int, unhealthy: set<nat>, refreshed: set<nat>): (r: set<nat>)
    ensures forall k :: k in r <==> exists s :: s in ss && Doomed(s, now, unhealthy, refreshed) && s.number == k
  {
    if ss == [] then {}
    else
      var front := ss[..|ss| - 1];
      var last := ss[|ss| - 1];
      assert ss == front + [last];
      DoomedNumbers(front, now, unhealthy, refreshed) + (if Doomed(last, now, unhealthy, refreshed) then {last.number} else {})
  }

  /** The sessions whose numbers are not in `drop`, in order. */
  function Keep(ss: seq<PooledSession>, drop: set<nat>): (r: seq<PooledSession>)
    ensures |r| <= |ss|
  {
    if ss == [] then []
    else if ss[0].number in drop then Keep(ss[1..], drop)
    else [ss[0]] + Keep(ss[1..], drop)
  }

  /** A session survives exactly when it was in the list and its number is not dropped. */
  lemma {:induction false} KeepMembers(ss: seq<PooledSession>, drop: set<nat>)
    ensures forall x :: x in Keep(ss, drop) <==> x in ss && x.number !in drop
  {
    if ss != [] {
      KeepMembers(ss[1..], drop);
      assert forall x :: x in ss <==> x == ss[0] || x in ss[1..];
    }
  }

  /** Removal keeps the numbers increasing. */
  lemma {:induction false} KeepIncreasing(ss: seq<PooledSession>, drop: set<nat>)
    requires Increasing(ss)
    ensures Increasing(Keep(ss, drop))
  {
    if ss != [] {
      var rest := Keep(ss[1..], drop);
      KeepIncreasing(ss[1..], drop);
      KeepMembers(ss[1..], drop);
      if ss[0].number !in drop {
        TailAbove(ss, rest);
      }
    }
  }

  /** Dropping no number keeps the whole list. */
  lemma {:induction false} KeepNone(ss: seq<PooledSession>)
    ensures Keep(ss, {}) == ss
  {
    if ss != [] {
      KeepNone(ss[1..]);
      assert ss == [ss[0]] + ss[1..];
    }
  }

  /** Dropping two sets of numbers one after the other is dropping their union. */
  lemma {:induction false} KeepKeep(ss: seq<PooledSession>, a: set<nat>, b: set<nat>)
    ensures Keep(Keep(ss, a), b) == Keep(ss, a + b)
  {
    if ss != [] {
      KeepKeep(ss[1..], a, b);
    }
  }

  /** Lists that agree everywhere except on numbers being dropped give the same survivors. */
  lemma {:induction false} KeepAgree(x: seq<PooledSession>, y: seq<PooledSession>, drop: set<nat>)
    requires |x| == |y|
    requires forall i :: 0 <= i < |x| ==> x[i].number == y[i].number
    requires forall i :: 0 <= i < |x| && x[i].number !in drop ==> x[i] == y[i]
    ensures Keep(x, drop) == Keep(y, drop)
  {
    if x != [] {
      KeepAgree(x[1..], y[1..], drop);
    }
  }

  /** Releasing a session that is then removed leaves no trace. */
  lemma ReleaseThenRemove(p: PoolState, n: nat, now: int, drop: set<nat>)
    requires n in drop
    ensures Keep(Release(p, Some(n), now).sessions, drop) == Keep(p.sessions, drop)
  {
    ReleaseMarksIdle(p, Some(n), now);
    KeepAgree(Release(p, Some(n), now).sessions, p.sessions, drop);
  }

  /** The pool after maintenance: every session that is not doomed. */
  function Survivors(ss: seq<PooledSession>, now: int, unhealthy: set<nat>, refreshed: set<nat>): (r: seq<PooledSession>)
    ensures |r| <= |ss|
    ensures Increasing(ss) ==> Increasing(r)
  {
    var doomed := DoomedNumbers(ss, now, unhealthy, refreshed);
    var r := Keep(ss, doomed);
    assert Increasing(ss) ==> Increasing(r) by {
      if Increasing(ss) {
        KeepIncreasing(ss, doomed);
      }
    }
    r
  }

  /** In a pool with unique numbers, maintenance keeps exactly the sessions that are not doomed. */
  lemma SurvivorsExact(ss: seq<PooledSession>, now: int, unhealthy: set<nat>, refreshed: set<nat>)
    requires Increasing(ss)
    ensures forall x :: x in Survivors(ss, now, unhealthy, refreshed) <==> x in ss && !Doomed(x, now, unhealthy, refreshed)
  {
    KeepMembers(ss, DoomedNumbers(ss, now, unhealthy, refreshed));
    forall x | x in ss && x.number in DoomedNumbers(ss, now, unhealthy, refreshed)
      ensures Doomed(x, now, unhealthy, refreshed)
    {
      var s :| s in ss && Doomed(s, now, unhealthy, refreshed) && s.number == x.number;
      NumberUnique(ss, s);
    }
  }

  /** Maintenance keeps the pool invariant. */
  lemma MaintainKeepsValid(p: PoolState, maxSessions: int, now: int, unhealthy: set<nat>, refreshed: set<nat>)
    requires Valid(p, maxSessions)
    ensures Valid(PoolState(Survivors(p.sessions, now, unhealthy, refreshed), p.counter), maxSessions)
  {
    var r := Survivors(p.sessions, now, unhealthy, refreshed);
    KeepMembers(p.sessions, DoomedNumbers(p.sessions, now, unhealthy, refreshed));
    assert forall i :: 0 <= i < |r| ==> r[i] in r;
  }

  // ---------------------------------------------------------------------
  // Busy sessions
  // ---------------------------------------------------------------------

  /** The numbers of the sessions marked busy. */
  function BusyNumbers(ss: seq<PooledSession>): set<nat> {
    set s | s in ss && s.busy :: s.number
  }

  /** A lease marks at most the leased session busy. */
  lemma LeaseBusy(p: PoolState, now: int, maxSessions: int, driverOk: bool)
    ensures var r := Lease(p, now, maxSessions, driverOk);
            BusyNumbers(r.0.sessions) <= BusyNumbers(p.sessions) + (if r.1.Some? then {r.1.value} else {})
  {
    var r := Lease(p, now, maxSessions, driverOk);
    var pruned := Prune(p.sessions, now);
    forall k | k in BusyNumbers(r.0.sessions)
      ensures k in BusyNumbers(p.sessions) || r.1 == Some(k)
    {
      var x :| x in r.0.sessions && x.busy && x.number == k;
      var j :| 0 <= j < |r.0.sessions| && r.0.sessions[j] == x;
      match FirstIdle(pruned)
      case Some(i) =>
        if j != i {
          assert pruned[j] in pruned;
        }
      case None =>
        if j < |pruned| {
          assert pruned[j] in pruned;
        }
    }
  }

  /** A released number is no longer busy, and no other session becomes busy. */
  lemma ReleaseBusy(p: PoolState, n: nat, now: int)
    ensures BusyNumbers(Release(p, Some(n), now).sessions) <= BusyNumbers(p.sessions) - {n}
  {
    var r := Release(p, Some(n), now);
    ReleaseMarksIdle(p, Some(n), now);
    forall k | k in BusyNumbers(r.sessions) ensures k in BusyNumbers(p.sessions) - {n} {
      var x :| x in r.sessions && x.busy && x.number == k;
      var j :| 0 <= j < |r.sessions| && r.sessions[j] == x;
      assert p.sessions[j] in p.sessions;
    }
  }

  /** Maintenance only removes sessions. */
  lemma KeepBusy(ss: seq<PooledSession>, drop: set<nat>)
    ensures BusyNumbers(Keep(ss, drop)) <= BusyNumbers(ss)
  {
    KeepMembers(ss, drop);
  }

  // ---------------------------------------------------------------------
  // Health-checked lease and the five-attempt search
  // ---------------------------------------------------------------------

  /**
   * `_get_session_with_health_check`: maintenance, then `get_session`; a
   * leased session that fails the health check is kept when its refresh
   * works and released otherwise.
   */
  function HealthLease(p: PoolState, maxSessions: int, now: int, unhealthy: set<nat>, refreshed: set<nat>,
                       driverOk: bool, healthy: bool, refreshOk: bool): (r: (PoolState, Option<nat>))
  {
    var m := PoolState(Survivors(p.sessions, now, unhealthy, refreshed), p.counter);
    var (q, leased) := Lease(m, now, maxSessions, driverOk);
    if leased.Some? && !healthy && !refreshOk then (Release(q, leased, now), None) else (q, leased)
  }

  /** The health-checked lease keeps the pool invariant. */
  lemma HealthLeaseKeepsValid(p: PoolState, maxSessions: int, now: int, unhealthy: set<nat>, refreshed: set<nat>,
                              driverOk: bool, healthy: bool, refreshOk: bool)
    requires Valid(p, maxSessions)
    ensures Valid(HealthLease(p, maxSessions, now, unhealthy, refreshed, driverOk, healthy, refreshOk).0, maxSessions)
  {
    var m := PoolState(Survivors(p.sessions, now, unhealthy, refreshed), p.counter);
    MaintainKeepsValid(p, maxSessions, now, unhealthy, refreshed);
    LeaseKeepsValid(m, now, maxSessions, driverOk);
    ReleaseKeepsValid(Lease(m, now, maxSessions, driverOk).0, Lease(m, now, maxSessions, driverOk).1, now, maxSessions);
  }

  /** The health-checked lease marks at most the session it hands out busy. */
  lemma HealthLeaseBusy(p: PoolState, maxSessions: int, now: int, unhealthy: set<nat>, refreshed: set<nat>,
                        driverOk: bool, healthy: bool, refreshOk: bool)
    ensures var r := HealthLease(p, maxSessions, now, unhealthy, refreshed, driverOk, healthy, refreshOk);
            BusyNumbers(r.0.sessions) <= BusyNumbers(p.sessions) + (if r.1.Some? then {r.1.value} else {})
  {
    var m := PoolState(Survivors(p.sessions, now, unhealthy, refreshed), p.counter);
    KeepBusy(p.sessions, DoomedNumbers(p.sessions, now, unhealthy, refreshed));
    LeaseBusy(m, now, maxSessions, driverOk);
    var (q, leased) := Lease(m, now, maxSessions, driverOk);
    if leased.Some? {
      ReleaseBusy(q, leased.value, now);
    }
  }

  const MaxBuscaAttempts: nat := 5

  /** `_refresh_session_auto`'s default number of attempts. */
  const DefaultRefreshRetries: int := 5

  /**
   * What the browser work of one search attempt does: the maintenance
   * outcomes, whether a new browser starts, the health check of the leased
   * session and its refresh, the tries of the login and of the search (with
   * their fallbacks), the refresh tried after a failed login or search, and
   * whether a later step raises.
   */
  datatype BuscaAttempt = BuscaAttempt(
    unhealthy: set<nat>, refreshed: set<nat>, driverOk: bool, healthy: bool,
    healthRefresh: seq<RefreshAttempt>,
    loginOps: seq<Option<Value>>, loginFallbacks: seq<bool>,
    searchOps: seq<Option<Value>>, searchFallbacks: seq<bool>,
    retryRefresh: seq<RefreshAttempt>, raises: bool)
  {
    /** What the browser work amounts to, as seen by the search loop. */
    function Outcome(): AttemptOutcome {
      AttemptOutcome(unhealthy, refreshed, driverOk, healthy,
                     RefreshWorks(healthRefresh, DefaultRefreshRetries),
                     Truthy(RobustOutcome(loginOps).0), Truthy(RobustOutcome(searchOps).0),
                     RefreshWorks(retryRefresh, DefaultRefreshRetries), raises)
    }
  }

  /** The outcomes of one attempt's browser work. */
  datatype AttemptOutcome = AttemptOutcome(
    unhealthy: set<nat>, refreshed: set<nat>, driverOk: bool, healthy: bool, healthRefreshOk: bool,
    loginOk: bool, searchOk: bool, retryRefreshOk: bool, raises: bool)

  function BuscaAt(script: seq<BuscaAttempt>, k: nat): BuscaAttempt {
    if k < |script| then script[k] else BuscaAttempt({}, {}, false, false, [], [], [], [], [], [], false)
  }

  /** The reply of `processar_busca`: one of its error dicts, or the success dict. */
  datatype BuscaReply = NoSession | LoginFailed | Unsupported | SearchFailed | FailedAfterRetries | Succeeded

  /** The search kinds the loop dispatches on. */
  predicate SupportedTipo(tipo: string) {
    tipo == "cpf" || tipo == "nome" || tipo == "processo"
  }

  /** How one search attempt ends: with a reply, or by going round again on the given pool. */
  datatype BuscaStep = Done(pool: PoolState, reply: BuscaReply) | Retry(pool: PoolState)

  /**
   * One attempt k of `processar_busca`. After a failed login or search whose
   * refresh works, attempts 0 to 3 go round again; the code does so without
   * releasing the session (`releaseBeforeRetry` false), the corrected loop
   * releases it first. An exception releases the session and retries until
   * the last attempt. Every other exit releases the session.
   */
  function BuscaAttemptStep(p: PoolState, maxSessions: int, now: int, supported: bool, a: AttemptOutcome,
                            k: nat, releaseBeforeRetry: bool): (r: BuscaStep)
    ensures r.Retry? ==> k < MaxBuscaAttempts - 1
  {
    var (q, leased) := HealthLease(p, maxSessions, now, a.unhealthy, a.refreshed, a.driverOk, a.healthy, a.healthRefreshOk);
    AttemptWithSession(q, leased, now, supported, a, k, releaseBeforeRetry)
  }

  /** The rest of attempt k once the health-checked lease has left pool `q` and given `leased`. */
  function AttemptWithSession(q: PoolState, leased: Option<nat>, now: int, supported: bool, a: AttemptOutcome,
                              k: nat, releaseBeforeRetry: bool): (r: BuscaStep)
    ensures r.Retry? ==> k < MaxBuscaAttempts - 1
  {
    var released := Release(q, leased, now);
    var retryPool := if releaseBeforeRetry then released else q;
    var canRetry := k < MaxBuscaAttempts - 1;
    if leased.None? then Done(q, NoSession)
    else if !a.loginOk then
      if canRetry && a.retryRefreshOk then Retry(retryPool) else Done(released, LoginFailed)
    else if !supported then Done(released, Unsupported)
    else if !a.searchOk then
      if canRetry && a.retryRefreshOk then Retry(retryPool) else Done(released, SearchFailed)
    else if a.raises then
      if canRetry then Retry(released) else Done(released, FailedAfterRetries)
    else Done(released, Succeeded)
  }

  /**
   * The attempt loop of `processar_busca` over a given step: attempt k either
   * ends the search or goes round again on the pool it leaves. The loop runs
   * at most `MaxBuscaAttempts` attempts; a step that still asks to go round
   * at the last one ends as failed after retries (the search's own step never
   * does, see `BuscaAttemptStep`).
   */
  function RunAttempts(step: (PoolState, nat) -> BuscaStep, p: PoolState, k: nat): (PoolState, BuscaReply)
    requires k < MaxBuscaAttempts
    decreases MaxBuscaAttempts - k
  {
    match step(p, k)
    case Done(q, reply) => (q, reply)
    case Retry(q) => if k + 1 < MaxBuscaAttempts then RunAttempts(step, q, k + 1) else (q, FailedAfterRetries)
  }

  /** The step of `processar_busca`: attempt k with the browser work the script gives it. */
  function SearchStep(maxSessions: int, now: int, supported: bool, script: seq<BuscaAttempt>,
                      releaseBeforeRetry: bool): (PoolState, nat) -> BuscaStep
  {
    (p: PoolState, k: nat) => BuscaAttemptStep(p, maxSessions, now, supported, BuscaAt(script, k).Outcome(), k, releaseBeforeRetry)
  }

  /** A step that keeps the pool invariant keeps it over the whole loop. */
  lemma {:induction false} RunKeepsValid(step: (PoolState, nat) -> BuscaStep, maxSessions: int, p: PoolState, k: nat)
    requires k < MaxBuscaAttempts
    requires forall q, j :: Valid(q, maxSessions) ==> Valid(step(q, j).pool, maxSessions)
    ensures Valid(p, maxSessions) ==> Valid(RunAttempts(step, p, k).0, maxSessions)
    decreases MaxBuscaAttempts - k
  {
    if step(p, k).Retry? && k + 1 < MaxBuscaAttempts {
      RunKeepsValid(step, maxSessions, step(p, k).pool, k + 1);
    }
  }

  /** A step that marks no session busy leaves none busy over the whole loop. */
  lemma {:induction false} RunKeepsIdle(step: (PoolState, nat) -> BuscaStep, p: PoolState, k: nat)
    requires k < MaxBuscaAttempts
    requires forall q, j :: BusyNumbers(step(q, j).pool.sessions) <= BusyNumbers(q.sessions)
    ensures BusyNumbers(RunAttempts(step, p, k).0.sessions) <= BusyNumbers(p.sessions)
    decreases MaxBuscaAttempts - k
  {
    if step(p, k).Retry? && k + 1 < MaxBuscaAttempts {
      RunKeepsIdle(step, step(p, k).pool, k + 1);
    }
  }

  /** Every attempt of the search keeps the pool invariant. */
  lemma SearchStepKeepsValid(maxSessions: int, now: int, supported: bool, script: seq<BuscaAttempt>, releaseBeforeRetry: bool)
    ensures var step := SearchStep(maxSessions, now, supported, script, releaseBeforeRetry);
            forall q, j :: Valid(q, maxSessions) ==> Valid(step(q, j).pool, maxSessions)
  {
    forall q: PoolState, j: nat
      ensures Valid(q, maxSessions) ==>
              Valid(SearchStep(maxSessions, now, supported, script, releaseBeforeRetry)(q, j).pool, maxSessions)
    {
      AttemptKeepsValid(q, maxSessions, now, supported, BuscaAt(script, j).Outcome(), j, releaseBeforeRetry);
    }
  }

  /** With the release before every retry, no attempt of the search leaves a new session busy. */
  lemma SearchStepReleases(maxSessions: int, now: int, supported: bool, script: seq<BuscaAttempt>)
    ensures var step := SearchStep(maxSessions, now, supported, script, true);
            forall q, j :: BusyNumbers(step(q, j).pool.sessions) <= BusyNumbers(q.sessions)
  {
    forall q: PoolState, j: nat
      ensures BusyNumbers(SearchStep(maxSessions, now, supported, script, true)(q, j).pool.sessions) <= BusyNumbers(q.sessions)
    {
      CorrectedAttemptReleases(q, maxSessions, now, supported, BuscaAt(script, j).Outcome(), j, true);
    }
  }

  /**
   * `processar_busca` from attempt k on, as a pool transition and a reply.
   * As written or corrected, it keeps the pool invariant; with the release
   * before every retry it also leaves no session busy that was not busy
   * before it started, since every session it leases is given back on every
   * path.
   */
  function BuscaFrom(p: PoolState, maxSessions: int, now: int, supported: bool, script: seq<BuscaAttempt>,
                     k: nat, releaseBeforeRetry: bool): (r: (PoolState, BuscaReply))
    requires k < MaxBuscaAttempts
    ensures Valid(p, maxSessions) ==> Valid(r.0, maxSessions)
    ensures releaseBeforeRetry ==> BusyNumbers(r.0.sessions) <= BusyNumbers(p.sessions)
  {
    var step := SearchStep(maxSessions, now, supported, script, releaseBeforeRetry);
    SearchStepKeepsValid(maxSessions, now, supported, script, releaseBeforeRetry);
    RunKeepsValid(step, maxSessions, p, k);
    if releaseBeforeRetry then
      SearchStepReleases(maxSessions, now, supported, script);
      RunKeepsIdle(step, p, k);
      RunAttempts(step, p, k)
    else
      RunAttempts(step, p, k)
  }

  /** When attempt k finishes, the loop from k ends with that attempt's pool and reply. */
  lemma RunDone(step: (PoolState, nat) -> BuscaStep, p: PoolState, k: nat)
    requires k < MaxBuscaAttempts
    requires step(p, k).Done?
    ensures RunAttempts(step, p, k) == (step(p, k).pool, step(p, k).reply)
  {
  }

  /**
   * `trace` lists the pools attempts 0, 1, ... started from: every attempt
   * but the last went round again on the pool the next one started from.
   */
  ghost predicate RetriedThrough(step: (PoolState, nat) -> BuscaStep, trace: seq<PoolState>) {
    forall j :: 0 <= j < |trace| - 1 ==> step(trace[j], j) == Retry(trace[j + 1])
  }

  /** Along a trace, the loop from any attempt is the loop from the last one. */
  lemma {:induction false} TraceReaches(step: (PoolState, nat) -> BuscaStep, trace: seq<PoolState>, k: nat)
    requires k < |trace| <= MaxBuscaAttempts
    requires RetriedThrough(step, trace)
    ensures RunAttempts(step, trace[k], k) == RunAttempts(step, trace[|trace| - 1], |trace| - 1)
    decreases |trace| - k
  {
    if k < |trace| - 1 {
      assert step(trace[k], k) == Retry(trace[k + 1]);
      TraceReaches(step, trace, k + 1);
    }
  }

  /** Extending a trace by the pool a retrying attempt left. */
  lemma ExtendTrace(step: (PoolState, nat) -> BuscaStep, trace: seq<PoolState>, q: PoolState)
    requires |trace| > 0
    requires RetriedThrough(step, trace)
    requires step(trace[|trace| - 1], |trace| - 1) == Retry(q)
    ensures RetriedThrough(step, trace + [q])
  {
    var t := trace + [q];
    forall j | 0 <= j < |t| - 1
      ensures step(t[j], j) == Retry(t[j + 1])
    {
      if j < |trace| - 1 {
        assert t[j] == trace[j] && t[j + 1] == trace[j + 1];
      }
    }
  }

  /** One attempt keeps the pool invariant. */
  lemma AttemptKeepsValid(p: PoolState, maxSessions: int, now: int, supported: bool, a: AttemptOutcome,
                          k: nat, releaseBeforeRetry: bool)
    ensures Valid(p, maxSessions) ==>
            Valid(BuscaAttemptStep(p, maxSessions, now, supported, a, k, releaseBeforeRetry).pool, maxSessions)
  {
    if Valid(p, maxSessions) {
      HealthLeaseKeepsValid(p, maxSessions, now, a.unhealthy, a.refreshed, a.driverOk, a.healthy, a.healthRefreshOk);
      var (q, leased) := HealthLease(p, maxSessions, now, a.unhealthy, a.refreshed, a.driverOk, a.healthy, a.healthRefreshOk);
      ReleaseKeepsValid(q, leased, now, maxSessions);
    }
  }

  /** With the release before every retry, one attempt leaves no new session busy. */
  lemma CorrectedAttemptReleases(p: PoolState, maxSessions: int, now: int, supported: bool, a: AttemptOutcome, k: nat,
                                 releaseBeforeRetry: bool)
    ensures releaseBeforeRetry ==>
            BusyNumbers(BuscaAttemptStep(p, maxSessions, now, supported, a, k, releaseBeforeRetry).pool.sessions)
            <= BusyNumbers(p.sessions)
  {
    HealthLeaseBusy(p, maxSessions, now, a.unhealthy, a.refreshed, a.driverOk, a.healthy, a.healthRefreshOk);
    var (q, leased) := HealthLease(p, maxSessions, now, a.unhealthy, a.refreshed, a.driverOk, a.healthy, a.healthRefreshOk);
    if leased.Some? {
      ReleaseBusy(q, leased.value, now);
    }
  }

  /**
   * As written, the refresh-and-retry path keeps the session busy: a search
   * on an empty pool of one browser whose first login fails (and whose
   * refresh works) finds the pool full on its second attempt and gives up
   * with no session, although everything else would have succeeded.
   */
  lemma RetryWithoutReleaseExhaustsPool(first: BuscaAttempt, second: BuscaAttempt)
    requires first == BuscaAttempt({}, {}, true, true, [], [], [], [], [], [RefreshAttempt(true, false, false, false)], false)
    requires second == BuscaAttempt({}, {}, true, true, [], [Some(JBool(true))], [], [Some(JBool(true))], [], [], false)
    ensures var r := BuscaFrom(PoolState([], 0), 1, 0, true, [first, second], 0, false);
            r.1 == NoSession && BusyNumbers(r.0.sessions) == {1}
  {
    var s1 := PooledSession(1, true, 0, 0);
    var script := [first, second];
    var p1 := PoolState([s1], 1);
    FirstAttemptKeepsSession(first);
    SecondAttemptFindsPoolFull(second);
    assert BuscaAt(script, 0) == first && BuscaAt(script, 1) == second;
    RetryThenDone(PoolState([], 0), p1, 1, 0, true, script, false, NoSession);
    BusyNumbersOfOne(s1);
  }

  /** The busy numbers of a one-session pool. */
  lemma BusyNumbersOfOne(s: PooledSession)
    requires s.busy
    ensures BusyNumbers([s]) == {s.number}
  {
    assert s in [s];
  }

  /** A search whose first attempt goes round and whose second ends returns what the second returned. */
  lemma RetryThenDone(p0: PoolState, p1: PoolState, maxSessions: int, now: int, supported: bool,
                      script: seq<BuscaAttempt>, releaseBeforeRetry: bool, reply: BuscaReply)
    requires SearchStep(maxSessions, now, supported, script, releaseBeforeRetry)(p0, 0) == Retry(p1)
    requires SearchStep(maxSessions, now, supported, script, releaseBeforeRetry)(p1, 1) == Done(p1, reply)
    ensures BuscaFrom(p0, maxSessions, now, supported, script, 0, releaseBeforeRetry) == (p1, reply)
  {
    var step := SearchStep(maxSessions, now, supported, script, releaseBeforeRetry);
    RunDone(step, p1, 1);
  }

  /** The first attempt leases a fresh session, fails to log in, refreshes, and goes round holding it. */
  lemma FirstAttemptKeepsSession(first: BuscaAttempt)
    requires first == BuscaAttempt({}, {}, true, true, [], [], [], [], [], [RefreshAttempt(true, false, false, false)], false)
    ensures BuscaAttemptStep(PoolState([], 0), 1, 0, true, first.Outcome(), 0, false)
            == Retry(PoolState([PooledSession(1, true, 0, 0)], 1))
  {
    assert first.Outcome() == AttemptOutcome({}, {}, true, true, false, false, false, true, false) by {
      assert RobustOutcome([]).0 == JBool(false);
      assert RefreshAt(first.retryRefresh, 0).reloadOk;
    }
    var p0 := PoolState([], 0);
    assert Survivors([], 0, {}, {}) == [];
    assert Prune([], 0) == [];
    assert FirstIdle([]).None?;
    var l0 := Lease(p0, 0, 1, true);
    assert l0.1 == Some(1) && l0.0.counter == 1 && l0.0.sessions == [PooledSession(1, true, 0, 0)];
  }

  /** The second attempt finds its only session still busy and the pool full. */
  lemma SecondAttemptFindsPoolFull(second: BuscaAttempt)
    requires second == BuscaAttempt({}, {}, true, true, [], [Some(JBool(true))], [], [Some(JBool(true))], [], [], false)
    ensures var s1 := PooledSession(1, true, 0, 0);
            BuscaAttemptStep(PoolState([s1], 1), 1, 0, true, second.Outcome(), 1, false) == Done(PoolState([s1], 1), NoSession)
  {
    var s1 := PooledSession(1, true, 0, 0);
    assert DoomedNumbers([s1], 0, {}, {}) == {} by {
      assert [s1][..0] == [];
    }
    assert Survivors([s1], 0, {}, {}) == [s1] by {
      assert [s1][1..] == [];
    }
    assert Prune([s1], 0) == [s1] by {
      assert [s1][1..] == [];
    }
    assert FirstIdle([s1]).None?;
    assert Lease(PoolState([s1], 1), 0, 1, true) == (PoolState([s1], 1), None);
  }

  // ---------------------------------------------------------------------
  // Replacing a broken session
  // ---------------------------------------------------------------------

  /**
   * `_handle_session_error` as written: the broken session is released and
   * removed, and `_create_session` makes a replacement (counting the
   * attempt) that is handed to the caller but never put into the pool.
   */
  function HandleError(p: PoolState, number: nat, now: int, driverOk: bool): (r: (PoolState, Option<PooledSession>))
    ensures r.0.sessions == Keep(p.sessions, {number}) && r.0.counter == p.counter + 1
    ensures r.1.Some? <==> driverOk
    ensures r.1.Some? ==> r.1.value == PooledSession(r.0.counter, false, now, now)
  {
    ReleaseThenRemove(p, number, now, {number});
    var kept := Keep(Release(p, Some(number), now).sessions, {number});
    (PoolState(kept, p.counter + 1), if driverOk then Some(PooledSession(p.counter + 1, false, now, now)) else None)
  }

  /** `HandleError` as its three steps: release, removal, creation. */
  lemma HandleErrorSteps(p: PoolState, number: nat, now: int, driverOk: bool)
    ensures HandleError(p, number, now, driverOk)
            == (PoolState(Keep(Release(p, Some(number), now).sessions, {number}), p.counter + 1),
                if driverOk then Some(PooledSession(p.counter + 1, false, now, now)) else None)
  {
  }

  /**
   * The replacement browser is live but outside the pool: no pooled session
   * carries its number, so the cap, the status counts and `cleanup` never
   * see it, while the pool has lost the broken session's slot.
   */
  lemma ReplacementOutsidePool(p: PoolState, maxSessions: int, number: nat, now: int, driverOk: bool)
    requires Valid(p, maxSessions)
    ensures var r := HandleError(p, number, now, driverOk);
            r.1.Some? ==> forall s :: s in r.0.sessions ==> s.number != r.1.value.number
  {
    KeepMembers(p.sessions, {number});
  }

  /**
   * The corrected replacement: after removing the broken session, a
   * replacement whose browser starts joins the pool, busy for the caller,
   * when the pool has room; otherwise nothing is handed out.
   */
  function HandleErrorPooled(p: PoolState, maxSessions: int, number: nat, now: int, driverOk: bool)
    : (r: (PoolState, Option<PooledSession>))
  {
    var kept := Keep(p.sessions, {number});
    var made := PooledSession(p.counter + 1, true, now, now);
    if driverOk && |kept| < maxSessions then (PoolState(kept + [made], p.counter + 1), Some(made))
    else (PoolState(kept, p.counter + 1), None)
  }

  /** The corrected replacement keeps the pool invariant and is pooled, busy, whenever it is handed out. */
  lemma PooledReplacementIsLeased(p: PoolState, maxSessions: int, number: nat, now: int, driverOk: bool)
    requires Valid(p, maxSessions)
    ensures var r := HandleErrorPooled(p, maxSessions, number, now, driverOk);
            && Valid(r.0, maxSessions)
            && (r.1.Some? ==> r.1.value in r.0.sessions && r.1.value.busy)
            && (forall s :: s in r.0.sessions && s.number != p.counter + 1 ==> s in p.sessions && s.number != number)
  {
    var kept := Keep(p.sessions, {number});
    KeepMembers(p.sessions, {number});
    KeepIncreasing(p.sessions, {number});
    assert forall i :: 0 <= i < |kept| ==> kept[i] in kept;
    if driverOk && |kept| < maxSessions {
      AppendAbove(kept, PooledSession(p.counter + 1, true, now, now));
    }
  }

  // ---------------------------------------------------------------------
  // The API object
  // ---------------------------------------------------------------------

  /** `ProjudiAPI`: the supervisor around one session pool. */
  class ProjudiApi {
    const pool: SessionPool

    /** The pool takes its size from the environment (no explicit argument). */
    constructor (env: Option<string>)
      ensures fresh(pool) && pool.maxSessions == MaxSessionsSetting(None, env)
      ensures pool.sessions == [] && pool.sessionCounter == 0
    {
      pool := new SessionPool(None, env);
    }

    /**
     * `_maintain_session_pool`: one pass collects the doomed sessions, a
     * second releases each and removes it from the list.
     */
    method MaintainSessionPool(now: int, unhealthy: set<nat>, refreshed: set<nat>)
      modifies pool
      ensures pool.sessions == Survivors(old(pool.sessions), now, unhealthy, refreshed)
      ensures pool.sessionCounter == old(pool.sessionCounter)
    {
      var doomed: seq<nat> := [];
      ghost var doomedSet: set<nat> := {};
      var i := 0;
      while i < |pool.sessions|
        invariant 0 <= i <= |pool.sessions|
        invariant pool.sessions == old(pool.sessions) && pool.sessionCounter == old(pool.sessionCounter)
        invariant doomedSet == DoomedNumbers(pool.sessions[..i], now, unhealthy, refreshed)
        invariant forall k :: k in doomed <==> k in doomedSet
      {
        assert pool.sessions[..i + 1][..i] == pool.sessions[..i];
        var s := pool.sessions[i];
        if s.number in unhealthy {
          doomed := doomed + [s.number];
        } else if now - s.lastUsed > StaleSeconds {
          doomed := doomed + [s.number];
        } else if now - s.lastUsed > RefreshIdleSeconds && s.number !in refreshed {
          doomed := doomed + [s.number];
        }
        doomedSet := doomedSet + (if Doomed(s, now, unhealthy, refreshed) then {s.number} else {});
        i := i + 1;
      }
      assert pool.sessions[..i] == pool.sessions;
      RemoveSessions(doomed, doomedSet, now);
    }

    /** The second pass of the maintenance: release and remove each listed session. */
    method RemoveSessions(doomed: seq<nat>, ghost doomedSet: set<nat>, now: int)
      requires forall k :: k in doomed <==> k in doomedSet
      modifies pool
      ensures pool.sessions == Keep(old(pool.sessions), doomedSet)
      ensures pool.sessionCounter == old(pool.sessionCounter)
    {
      ghost var removed: set<nat> := {};
      KeepNone(pool.sessions);
      var j := 0;
      while j < |doomed|
        invariant 0 <= j <= |doomed|
        invariant pool.sessionCounter == old(pool.sessionCounter)
        invariant forall k :: k in removed <==> k in doomed[..j]
        invariant pool.sessions == Keep(old(pool.sessions), removed)
      {
        var n := doomed[j];
        ReleaseThenRemove(pool.Snapshot(), n, now, {n});
        pool.ReleaseSession(Some(n), now);
        pool.sessions := Keep(pool.sessions, {n});
        KeepKeep(old(pool.sessions), removed, {n});
        assert doomed[..j + 1] == doomed[..j] + [n];
        removed := removed + {n};
        j := j + 1;
      }
      assert doomed[..j] == doomed;
      assert removed == doomedSet;
    }

    /**
     * `_get_session_with_health_check`; the refresh of an unhealthy leased
     * session runs over `refresh`.
     */
    method GetSessionWithHealthCheck(now: int, unhealthy: set<nat>, refreshed: set<nat>, driverOk: bool,
                                     healthy: bool, refresh: seq<RefreshAttempt>)
      returns (leased: Option<nat>)
      modifies pool
      ensures (pool.Snapshot(), leased) == HealthLease(old(pool.Snapshot()), pool.maxSessions, now, unhealthy, refreshed,
                                                       driverOk, healthy, RefreshWorks(refresh, DefaultRefreshRetries))
    {
      MaintainSessionPool(now, unhealthy, refreshed);
      leased := pool.GetSession(now, driverOk);
      if leased.None? {
        return;
      }
      if !healthy {
        var ok, _ := RefreshSessionAuto(refresh, DefaultRefreshRetries);
        if !ok {
          pool.ReleaseSession(leased, now);
          leased := None;
        }
      }
    }

    /**
     * `processar_busca`'s attempt loop as written. The result dict is
     * reduced to which exit was taken; the extraction of the processes
     * found is not modelled.
     */
    method ProcessarBusca(tipo: string, now: int, script: seq<BuscaAttempt>) returns (reply: BuscaReply)
      modifies pool
      ensures (pool.Snapshot(), reply) == BuscaFrom(old(pool.Snapshot()), pool.maxSessions, now, SupportedTipo(tipo), script, 0, false)
    {
      var supported := SupportedTipo(tipo);
      ghost var step := SearchStep(pool.maxSessions, now, supported, script, false);
      var attempt: nat := 0;
      ghost var trace := [pool.Snapshot()];
      while true
        invariant attempt < MaxBuscaAttempts
        invariant |trace| == attempt + 1 && trace[0] == old(pool.Snapshot()) && trace[attempt] == pool.Snapshot()
        invariant RetriedThrough(step, trace)
        decreases MaxBuscaAttempts - attempt
      {
        var done;
        done, reply := BuscaAttemptOnce(supported, now, BuscaAt(script, attempt), attempt);
        assert step(trace[attempt], attempt)
               == BuscaAttemptStep(trace[attempt], pool.maxSessions, now, supported, BuscaAt(script, attempt).Outcome(), attempt, false);
        if done {
          RunDone(step, trace[attempt], attempt);
          TraceReaches(step, trace, 0);
          return;
        }
        ExtendTrace(step, trace, pool.Snapshot());
        trace := trace + [pool.Snapshot()];
        attempt := attempt + 1;
      }
    }

    /** One pass of the attempt loop; `done` is false when the loop goes round again. */
    method BuscaAttemptOnce(supported: bool, now: int, a: BuscaAttempt, attempt: nat) returns (done: bool, reply: BuscaReply)
      modifies pool
      ensures var step := BuscaAttemptStep(old(pool.Snapshot()), pool.maxSessions, now, supported, a.Outcome(), attempt, false);
              pool.Snapshot() == step.pool && (done <==> step.Done?) && (done ==> reply == step.reply)
    {
      var leased := GetSessionWithHealthCheck(now, a.unhealthy, a.refreshed, a.driverOk, a.healthy, a.healthRefresh);
      done, reply := SearchWithSession(leased, supported, now, a, attempt);
    }

    /** The login, the search and the retry decision of one pass, once the lease has given `leased`. */
    method SearchWithSession(leased: Option<nat>, supported: bool, now: int, a: BuscaAttempt, attempt: nat)
      returns (done: bool, reply: BuscaReply)
      modifies pool
      ensures var step := AttemptWithSession(old(pool.Snapshot()), leased, now, supported, a.Outcome(), attempt, false);
              pool.Snapshot() == step.pool && (done <==> step.Done?) && (done ==> reply == step.reply)
    {
      ghost var o := a.Outcome();
      if leased.None? {
        return true, NoSession;
      }
      var login, _, _ := RobustOperation(a.loginOps, a.loginFallbacks);
      assert Truthy(login) == o.loginOk;
      if !Truthy(login) {
        if attempt < MaxBuscaAttempts - 1 {
          var refreshedOk, _ := RefreshSessionAuto(a.retryRefresh, DefaultRefreshRetries);
          assert refreshedOk == o.retryRefreshOk;
          if refreshedOk {
            return false, NoSession;
          }
        }
        pool.ReleaseSession(leased, now);
        return true, LoginFailed;
      }
      if !supported {
        pool.ReleaseSession(leased, now);
        return true, Unsupported;
      }
      var found, _, _ := RobustOperation(a.searchOps, a.searchFallbacks);
      assert Truthy(found) == o.searchOk;
      if !Truthy(found) {
        if attempt < MaxBuscaAttempts - 1 {
          var refreshedOk, _ := RefreshSessionAuto(a.retryRefresh, DefaultRefreshRetries);
          assert refreshedOk == o.retryRefreshOk;
          if refreshedOk {
            return false, NoSession;
          }
        }
        pool.ReleaseSession(leased, now);
        return true, SearchFailed;
      }
      pool.ReleaseSession(leased, now);
      if a.raises {
        return attempt >= MaxBuscaAttempts - 1, FailedAfterRetries;
      }
      return true, Succeeded;
    }

    /** `_handle_session_error` as written. */
    method HandleSessionError(number: nat, now: int, driverOk: bool) returns (replacement: Option<PooledSession>)
      modifies pool
      ensures (pool.Snapshot(), replacement) == HandleError(old(pool.Snapshot()), number, now, driverOk)
    {
      ghost var p := pool.Snapshot();
      HandleErrorSteps(p, number, now, driverOk);
      pool.ReleaseSession(Some(number), now);
      Discard(number);
      ghost var kept := pool.Snapshot();
      assert kept == PoolState(Keep(Release(p, Some(number), now).sessions, {number}), p.counter);
      replacement := pool.CreateSession(driverOk, now);
    }

    /** The removal of one session from the pool list. */
    method Discard(number: nat)
      modifies pool
      ensures pool.Snapshot() == PoolState(Keep(old(pool.sessions), {number}), old(pool.sessionCounter))
    {
      pool.sessions := Keep(pool.sessions, {number});
    }
  }
}
