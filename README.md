# PROJUDI search API — a Dafny model

This project models the core of an HTTP service that searches PROJUDI, the electronic court-records system of the Goiás state court (TJGO). A search is by CPF, by name or by process number. The scraped result holds the processes found, their movements (movimentações), their parties and the text of their attachments. The repository holds two generations of the service, and the model covers both.

- **The current FastAPI service** (`api/main.py`, `api/models.py`).
  - A complete search chains three scraper levels:
    - level 1 searches (`nivel_1/busca.py`);
    - level 2 reads a process page (`nivel_2/processo.py`);
    - level 3 opens and reads the attachments (`nivel_3/anexos.py`).
  - Around the search:
    - the credentials given with a request are written into the shared settings and restored afterwards;
    - a batch endpoint runs up to ten searches;
    - a table of active requests is swept of old entries;
    - a concurrency gate keeps counters around every guarded call (`core/concurrency_manager.py`);
    - a session manager leases browser sessions (`core/session_manager.py`).
- **The legacy Flask service** (`ANTIGOS/`).
  - A Redis-backed request queue: a list plus a `processing` hash and a `results` hash (`ANTIGOS/queue_manager.py`).
  - Worker iterations and the HTTP handlers (`ANTIGOS/main.py`).
  - A browser-session pool with idle pruning (`ANTIGOS/session_pool.py`).
  - The session supervisor with its bounded retries and its five-attempt search loop (`ANTIGOS/projudi_api.py`).
  - Two attachment extractors (`ANTIGOS/PLUS/`).
- **Two offline scripts.**
  - One reshapes a batch answer into organised searches and a summary (`organizar_resultado.py`).
  - One writes a CSV and an HTML report from them (`gerar_relatorio_legivel.py`).

Every core source file has one Dafny module (file names in parentheses).

- State the source changes in place becomes a `class`, whose methods are proved against specification functions on its state:
  - the Redis structures (`TaskQueue.QueueManager`);
  - the session dictionaries and lists (`SessionManager.SessionManager`, `SessionPool.SessionPool`);
  - the gate's counters (`ConcurrencyGate.ConcurrencyManager`);
  - the API's settings and active-request table (`ApiMain`);
  - the CSV writer (`Relatorio`).
- Loops that append or update become methods with loop invariants. Each is tied to a recursive function or a fold that states its result.
- Expression-level code becomes functions and lemmas:
  - cleaning, sorting, limiting and de-duplicating scraped lists;
  - validating results;
  - decoding N8N parameters;
  - aggregating reports.

What the browser, Redis, the PDF libraries and the clock would supply is a parameter. Examples:
- whether a login or a click succeeded;
- the texts a page shows;
- the pages a PDF library read, or `None` when it raised;
- the current time in seconds.

Helpers shared between modules:
- `Wrappers`: Option and Result;
- `JsonValue`: JSON values with Python truthiness;
- `StringUtil`: `strip`, whitespace collapsing, `int()`, substring tests, lower-casing;
- `ListUtil`: Python slicing, reversal and filtering;
- `Sorting`: Python's `sort` and `sorted` with an integer key, proved ordered and a permutation;
- `Dedup`: the seen-set loops;
- `AnexoLinks`: the attachment id read from a link.

## Model

| member | source | states |
|---|---|---|
| TaskQueue.NewRecord | ANTIGOS/queue_manager.py:39-47 | A new record is pending and holds the request data. It has retries 0, max_retries 3 and the creation time, and no start time. |
| TaskQueue.CompletedRecord | ANTIGOS/queue_manager.py:99-104 | The completed record holds the result. It has no `created_at`, so no age cutoff ever counts it as old. |
| TaskQueue.FailedRecord | ANTIGOS/queue_manager.py:142-148 | The final failed record holds the error and the retry count. It has no `created_at`, so it is never cleared as old. |
| TaskQueue.Add | ANTIGOS/queue_manager.py:35-62 | Left push: the list grows by one at its left end and the rest is unchanged. `results[id]` is the pending record with retries 0, max_retries 3 and the new list length as its position. `processing` and every other result are unchanged. |
| TaskQueue.Pop | ANTIGOS/queue_manager.py:64-85 | An empty list: nothing changes and nothing is returned. Otherwise the rightmost record is removed, marked processing with the current start time, filed in `processing` and returned. `results` is never written. |
| TaskQueue.Complete | ANTIGOS/queue_manager.py:91-106 | The id leaves `processing`. `results[id]` becomes a completed record with the result. The list and every other result are unchanged. |
| TaskQueue.Fail | ANTIGOS/queue_manager.py:117-151 | The id leaves `processing`. If the id has no stored record, nothing else changes. If a retry is allowed and retries+1 < max_retries, the record goes back to pending with the count raised and is pushed on the left. Otherwise it is replaced by the final failed record with that count. Other results are unchanged. |
| TaskQueue.IndexOfId | ANTIGOS/queue_manager.py:175-184 | The first index from the left end whose record has the id, or -1 exactly when no record has it. |
| TaskQueue.WithoutOrphans | ANTIGOS/queue_manager.py:244-267 | The keys left are the old ones minus the orphans (a start time that does not parse, or one more than 600 s ago). Every kept entry is unchanged and is not an orphan. |
| TaskQueue.WithoutOldResults | ANTIGOS/queue_manager.py:207-230 | The keys left are the old ones minus those whose `created_at` parses and is older than the cutoff. Every kept entry is unchanged. |
| TaskQueue.OperationsKeepWellKeyed | ANTIGOS/queue_manager.py:35-151 | Adding, popping, completing and failing each keep every hash entry filed under the id its record carries. |
| TaskQueue.DequeueOrderPushLeft | ANTIGOS/queue_manager.py:51 | A left push puts the new id last in the order in which right pops hand records out. |
| TaskQueue.DequeueOrderAt | ANTIGOS/queue_manager.py:73 | The record at list index i is handed out after exactly len(q)-1-i others. |
| TaskQueue.AddIsFifo | ANTIGOS/queue_manager.py:49-58 | `add_to_queue` appends the new id to the dequeue order and keeps the order of everything queued before it. |
| TaskQueue.PopIsFifo | ANTIGOS/queue_manager.py:72-73 | `get_from_queue` hands out the head of the dequeue order and leaves the rest in order. |
| TaskQueue.PositionAhead | ANTIGOS/queue_manager.py:174 | Corrected position: a non-negative answer for a queued id is the number of requests served before it. |
| TaskQueue.FreshRequestReportsFront | ANTIGOS/queue_manager.py:170-184 | As written, a request added behind n others reports position 0, while the corrected position is n. |
| TaskQueue.SweptRequestIsStranded | ANTIGOS/queue_manager.py:244-267 | A dequeued request that the sweep removes is in neither the list nor `processing`, and its stored record still says pending. No later dequeue can return it. |
| TaskQueue.QueueManager.constructor | ANTIGOS/queue_manager.py:18-25 | The manager starts with an empty list and empty hashes. |
| TaskQueue.QueueManager.AddToQueue | ANTIGOS/queue_manager.py:35-62 | The new state is `Add` of the old one, and the returned id is the drawn one. |
| TaskQueue.QueueManager.GetFromQueue | ANTIGOS/queue_manager.py:64-85 | The new state and the returned record are those of `Pop`. |
| TaskQueue.QueueManager.MarkCompleted | ANTIGOS/queue_manager.py:91-106 | The new state is `Complete` of the old one. |
| TaskQueue.QueueManager.MarkFailed | ANTIGOS/queue_manager.py:117-151 | The new state is `Fail` of the old one. |
| TaskQueue.QueueManager.GetStatus | ANTIGOS/queue_manager.py:156-162 | The stored record is returned exactly when the id has one. |
| TaskQueue.QueueManager.GetQueuePosition | ANTIGOS/queue_manager.py:167-184 | 0 while the id is in processing. Otherwise the index of its first record from the left end. -1 exactly when it is neither processing nor queued. |
| TaskQueue.QueueManager.GetQueueStats | ANTIGOS/queue_manager.py:190-202 | The counts are the list length and the sizes of both hashes. |
| TaskQueue.QueueManager.ClearOldResults | ANTIGOS/queue_manager.py:207-233 | `results` loses exactly the old records. The returned count is their number. The list and `processing` are unchanged. |
| TaskQueue.QueueManager.ClearOrphanedRequests | ANTIGOS/queue_manager.py:239-270 | `processing` loses exactly the orphans. The returned count is their number. The list and `results` are unchanged. |
| QueueWorker.Step | ANTIGOS/main.py:70-98 | An empty queue: nothing changes. Otherwise the oldest request leaves `processing`. A normal return (error dicts included) stores it as completed with that result. An exception applies `mark_failed` with retry. |
| QueueWorker.WorkerIteration | ANTIGOS/main.py:73-98 | The live manager's new state and the processed id are those of `Step`. |
| QueueWorker.AlwaysFailingRequestFailsOnThirdAttempt | ANTIGOS/main.py:96-98 | A request whose search always raises is pending again with retries 1 and then 2. On its third failure it is stored as failed with retries 3, and the queue is empty. |
| QueueWorker.FailTwiceThenSucceed | ANTIGOS/main.py:84-93 | Two failures and then a return leave the request completed with the result. The completed record no longer carries a retry count. |
| QueueWorker.StatusResponse | ANTIGOS/main.py:205-242 | 503 without a queue and 404 for an unknown id. A completed record adds its result and a processing time of 0, since no record stores one. A failed record adds its error, defaulting to "Erro desconhecido". Other statuses add nothing. |
| QueueWorker.StoredRecordIsStable | ANTIGOS/main.py:70-98 | While an id is not queued, a worker step keeps its stored record, so repeated polls see the same record. |
| QueueWorker.RequestOf | ANTIGOS/main.py:281-284 | The request's `valor` is the body's, defaulting to the empty string. |
| QueueWorker.ValidateBuscar | ANTIGOS/main.py:276-287 | 400 exactly when the body is missing or falsy, or is an object whose `valor` is falsy. The internal-error answer, which the except branch sends as HTTP 200 with an "Erro interno: ..." error, exactly when the body is truthy but not an object, since `data.get` raises. Otherwise the accepted request carries the object's fields with their defaults. |
| QueueWorker.BuscasIn | ANTIGOS/main.py:356 | Python's `'buscas' in data` on a truthy body. It raises exactly on a number or `true`. On an object it is key membership. |
| QueueWorker.PlanBuscarMultiplo | ANTIGOS/main.py:354-391 | Rejected (400) exactly when the body is missing or falsy, `'buscas' in data` is false, or the object holds no list of 1 to 10 entries under "buscas". An internal error (HTTP 200 with an error) exactly when the body passes and is not an object, or an entry is not an object. Otherwise each entry with a falsy `valor` gets an error, and every other entry is submitted. |
| SessionManager.FirstReusable | core/session_manager.py:129-130 | The index of the first session in dict order that is not busy and is valid. -1 exactly when there is none. |
| SessionManager.FirstSome | core/session_manager.py:203-278 | The first successful launch, taken from the attempts. None exactly when every attempt failed. |
| SessionManager.FirstSomeAt | core/session_manager.py:203-270 | When attempt k is the first success, it is the launch used. |
| SessionManager.Lease | core/session_manager.py:128-146 | Reuse marks the first reusable session busy and used now, changing nothing else. A session is created, busy, only when none is reusable, the pool is below `max_browsers` and a launch succeeded; it is appended. Otherwise nothing changes and nothing is leased. A pool within the cap stays within it. |
| SessionManager.LeaseIds | core/session_manager.py:137-143 | With a fresh uuid, a lease keeps the ids distinct. The leased id is in the pool, and the only id it can add is the created one. |
| SessionManager.IndexOfSession | core/session_manager.py:153 | The position of the session with this id, or -1 exactly when the id is not in the dict. |
| SessionManager.Release | core/session_manager.py:148-161 | A pool member becomes not busy and used now, and nothing else changes. An unknown id or `None` changes nothing, and the ids stay the same. No validity check is made. |
| SessionManager.ReleasedIsIdle | core/session_manager.py:158-160 | A released pool member stays in the pool and is not busy. |
| SessionManager.Without | core/session_manager.py:177 | Exactly the sessions whose ids are not removed stay, in order. |
| SessionManager.RemoveSession | core/session_manager.py:177 | Deleting one id from the dict removes exactly the sessions with that id. |
| SessionManager.ClosableIds | core/session_manager.py:321-322 | The ids closed by the loop are exactly the collected ids whose teardown does not raise. |
| SessionManager.CountBusy | core/session_manager.py:330 | The busy count never exceeds the number of sessions. |
| SessionManager.SessionManager.constructor | core/session_manager.py:39-44 | A new manager has no sessions and Playwright not started. |
| SessionManager.SessionManager.CreateSession | core/session_manager.py:201-278 | The result is the first success among at most three launch attempts, or None. |
| SessionManager.SessionManager.FindReusable | core/session_manager.py:129-130 | The loop finds the first reusable session, or -1. |
| SessionManager.SessionManager.GetSession | core/session_manager.py:116-146 | If Playwright cannot be started, `initialize` re-raises, so `get_session` raises. The model returns the distinct result `StartupFailed`, leaves the sessions unchanged and stays not started. Otherwise the new sessions and the result are those of `Lease`. Ids stay distinct and within the cap, and a leased id is in the pool. |
| SessionManager.SessionManager.ReleaseSession | core/session_manager.py:148-161 | The new sessions are `Release` of the old ones. |
| SessionManager.SessionManager.CloseSession | core/session_manager.py:163-181 | A successful teardown deletes the session. A teardown that raises leaves the dict unchanged. |
| SessionManager.SessionManager.InvalidSessionIds | core/session_manager.py:315-319 | Exactly the ids of the invalid sessions, busy or not, are collected. |
| SessionManager.SessionManager.CloseEach | core/session_manager.py:321-322 | The collected ids whose teardown succeeds are removed. |
| SessionManager.SessionManager.CleanupInvalidSessions | core/session_manager.py:312-325 | The sessions become the old ones minus the invalid ones whose teardown succeeds. |
| SessionManager.SessionManager.GetStats | core/session_manager.py:327-340 | total, busy and logged-in are counts over the sessions. busy never exceeds total, and available is total - busy. |
| SessionManager.SessionManager.UseSession | core/session_manager.py:362-372 | The manager is started exactly when it already was or the start succeeds. There is no session, and the context manager raises, exactly when the start failed or the pool is full; then nothing changes. Otherwise the session is the one `Lease` hands out. The new session list is that lease followed by the release at the later time, whether the body raised or not, so the session ends in the pool and not busy. |
| SessionManager.CleanupEvictsExactlyInvalid | core/session_manager.py:312-325 | The cleanup keeps every valid session, removes every invalid one it can close, and keeps only valid ones or those whose teardown failed. |
| SessionManager.LeaseRepeatedly | core/session_manager.py:128-146 | One result per lease. |
| SessionManager.FreshAfterLease | core/session_manager.py:137-143 | After one lease, the ids stay distinct and the remaining fresh uuids stay fresh. |
| SessionManager.LeasingWithoutReleaseExhausts | core/session_manager.py:136-146 | With every session busy and no release, lease i creates a session exactly when the pool plus i is below `max_browsers`, and otherwise gets nothing. |
| SessionManager.IdleSessionIsReplaced | core/session_manager.py:287-289 | A session idle for more than 10 minutes is removed by the cleanup when its teardown succeeds. No later lease hands out its id. |
| SessionPool.MaxSessionsSetting | ANTIGOS/session_pool.py:30-45 | An explicit argument wins. Without one, a set environment variable holding digits gives its value. One that does not parse, or is unset or empty, gives the default of 10. |
| SessionPool.Prune | ANTIGOS/session_pool.py:209-212 | The kept sessions are exactly the pooled ones used less than 1800 seconds ago, busy or not, in their order. Increasing numbers stay increasing. |
| SessionPool.FirstIdle | ANTIGOS/session_pool.py:215-216 | The index found is of an idle session with only busy ones before it. No index means every session is busy. |
| SessionPool.LeaseOutcome | ANTIGOS/session_pool.py:207-233 | A leased number belongs to a session of the new pool that is busy and used now. Nothing is leased only when every recent session is busy and the driver failed or the pool is full. The counter moves by at most one. The pool grows by at most one session beyond the pruned list. |
| SessionPool.LeaseSource | ANTIGOS/session_pool.py:214-230 | A lease hands out an idle recent session, or the new session numbered by the incremented counter. A new one is created only when every recent session is busy and the pruned pool is below the cap. |
| SessionPool.LeaseKeepsValid | ANTIGOS/session_pool.py:207-233 | Each lease keeps the pool invariant: numbers unique, increasing and at most the counter, and the size within the cap. |
| SessionPool.PrunedValid | ANTIGOS/session_pool.py:212 | Pruning a valid pool leaves it valid. |
| SessionPool.MarkBusyValid | ANTIGOS/session_pool.py:216-218 | Marking one session busy and used now keeps a pool valid. |
| SessionPool.AddNewValid | ANTIGOS/session_pool.py:223-228 | Appending a busy session numbered by the next counter value keeps a pool below its cap valid. |
| SessionPool.CreatedNumberIsNew | ANTIGOS/session_pool.py:179-180 | A session created by a lease has a number above every session already pooled, so an id is never handed out twice. |
| SessionPool.StaleBusySessionIsDropped | ANTIGOS/session_pool.py:212 | A busy session idle 1800 seconds or more has no session with its number in the pool after the next lease. The pool forgets a session still in use. |
| SessionPool.Release | ANTIGOS/session_pool.py:235-240 | Releasing None changes nothing. Otherwise the counter and the pool size are unchanged. |
| SessionPool.ReleaseMarksIdle | ANTIGOS/session_pool.py:237-239 | Exactly the sessions carrying the released number become idle and used now. Every other session is unchanged. |
| SessionPool.ReleaseKeepsValid | ANTIGOS/session_pool.py:235-240 | Releasing keeps the pool invariant. |
| SessionPool.Status | ANTIGOS/session_pool.py:263-274 | Active is the number of busy sessions and total the pool size. Available is total minus active, never negative. The cap and the counter are reported as they are. |
| SessionPool.CountBusy | ANTIGOS/session_pool.py:265 | The count is at most the pool size, and zero exactly when no session is busy. |
| SessionPool.SessionPool.constructor | ANTIGOS/session_pool.py:30-48 | The cap comes from the setting. The pool is empty, the counter 0 and the invariant holds. |
| SessionPool.SessionPool.CreateSession | ANTIGOS/session_pool.py:176-205 | The counter moves on by one whether or not the browser starts. A session, idle and numbered by the new counter, comes back exactly when the driver started. The pool list is unchanged. |
| SessionPool.SessionPool.GetSession | ANTIGOS/session_pool.py:207-233 | The new pool and the leased number are those of the lease function on the old pool. |
| SessionPool.SessionPool.ReleaseSession | ANTIGOS/session_pool.py:235-240 | The new pool is the release function on the old one. |
| SessionPool.SessionPool.Cleanup | ANTIGOS/session_pool.py:242-261 | The list is emptied and the counter kept. |
| SessionPool.SessionPool.GetStatus | ANTIGOS/session_pool.py:263-274 | The status of the current pool, with available never negative. |
| SessionPool.SessionPool.GetSessionWithRetry | ANTIGOS/session_pool.py:276-293 | At most `max_retries` calls to the lease. Every call before the last found nothing. The last call's result is returned. Nothing is returned only after all the calls. A returned number is that of a pooled session, busy and used at that call's time. The invariant is kept. |
| ConcurrencyGate.Arrive | core/concurrency_manager.py:35-37 | An arriving call is counted as queued exactly when active has reached the cap. The flag reports whether it was. Nothing else changes. |
| ConcurrencyGate.Enter | core/concurrency_manager.py:39-46 | As written, entry removes one queued count whenever any is left, counted call or not. Active and total grow by one. |
| ConcurrencyGate.Leave | core/concurrency_manager.py:62-75 | A raise or a timeout adds one failure and a success adds none. Active always drops by one. |
| ConcurrencyGate.Reset | core/concurrency_manager.py:92-95 | Total and failed go back to zero. Active and queued stay. |
| ConcurrencyGate.ExecuteBookkeeping | core/concurrency_manager.py:25-75 | One call on its own leaves active as it was and adds one to total. Failed grows by one exactly on a raise or a timeout. The queued count never grows, and stays put when the call itself was counted. |
| ConcurrencyGate.SuccessRateRange | core/concurrency_manager.py:85-88 | With no more failures than calls, the rate lies between 0 and 100. It is 100 exactly when nothing failed, and 0 exactly when every call failed. |
| ConcurrencyGate.SequentialUseKeepsFailedWithinTotal | core/concurrency_manager.py:25-95 | Calls run one after another, and resets between them, keep failed within total. |
| ConcurrencyGate.ResetDuringCallsGivesNegativeRate | core/concurrency_manager.py:85-95 | A reset while two calls are inside lets both failures land on a zeroed total. After one more success the reported rate is -100. |
| ConcurrencyGate.TenCallsAgainstSix | core/concurrency_manager.py:35-46 | Ten calls on a cap of six, six entering first: six are active and four are counted as queued. |
| ConcurrencyGate.QueuedCountLosesWaitingCall | core/concurrency_manager.py:35-43 | With one slot, an uncounted call that takes the slot removes a waiting counted call's count. The gate reports nothing queued while a counted call still waits. |
| ConcurrencyGate.EnterCounted | core/concurrency_manager.py:40-42 | Intended entry: the queued count drops only for a call that was counted on arrival. Active and total grow by one. |
| ConcurrencyGate.IntendedEntryKeepsQueuedExact | core/concurrency_manager.py:35-95 | With intended entry, arrival, entry, exit and reset each keep the queued count equal to the number of waiting calls counted on arrival. |
| ConcurrencyGate.ConcurrencyManager.constructor | core/concurrency_manager.py:15-22 | The cap is the configured one and every counter starts at zero. |
| ConcurrencyGate.ConcurrencyManager.Arrival | core/concurrency_manager.py:35-37 | The counters move as the arrival function says. |
| ConcurrencyGate.ConcurrencyManager.Entry | core/concurrency_manager.py:39-46 | The counters move as the as-written entry function says. |
| ConcurrencyGate.ConcurrencyManager.Exit | core/concurrency_manager.py:62-75 | The counters move as the leave function says. |
| ConcurrencyGate.ConcurrencyManager.ExecuteWithLimits | core/concurrency_manager.py:25-75 | The counters follow arrival, entry and exit in turn. The call's value is returned exactly when it succeeded; otherwise the error is raised again. |
| ConcurrencyGate.ConcurrencyManager.GetStats | core/concurrency_manager.py:77-90 | The cap, the four counters and the success rate of the current state. |
| ConcurrencyGate.ConcurrencyManager.ResetStats | core/concurrency_manager.py:92-95 | The counters become the reset function of the old ones. |
| ProjudiApi.SessionLoggedOut | ANTIGOS/projudi_api.py:170-188 | An unreadable page counts as logged out, and so does one showing a login field label. A page judged logged in has no field label and no "login" or "usuario" in its lower-cased URL. |
| ProjudiApi.ReloginSession | ANTIGOS/projudi_api.py:190-215 | A log-on page that fails to load means failure. Otherwise relogin succeeds exactly when the page has no login field labels or the full login works. |
| ProjudiApi.LoggedInPageNeedsNoLogin | ANTIGOS/projudi_api.py:170-215 | A log-on page the logout test calls logged in makes relogin succeed whatever the login would do. |
| ProjudiApi.FallbackStrategy | ANTIGOS/projudi_api.py:143-168 | A logged-out session is as good as its relogin. Otherwise the fallback succeeds exactly when the session is healthy or its refresh works. |
| ProjudiApi.RobustOutcome | ANTIGOS/projudi_api.py:217-246 | One to three tries are made, and every try before the last failed. A truthy result is what the last try returned. A falsy result is False after three tries, the third one failed too. |
| ProjudiApi.FalsyResultIsFailure | ANTIGOS/projudi_api.py:223-227 | A falsy return such as an empty list gives the same outcome as an exception on that try. |
| ProjudiApi.RobustIgnoresLaterTries | ANTIGOS/projudi_api.py:219-221 | Anything scripted beyond the third try has no effect. |
| ProjudiApi.RobustOperation | ANTIGOS/projudi_api.py:217-246 | The loop returns the outcome and try count of the robust-operation function. The fallback runs after every failed try but the last. |
| ProjudiApi.RefreshSessionAuto | ANTIGOS/projudi_api.py:74-141 | Success exactly when the page source after the first reload does not contain "Usuario", or some attempt within `max_retries` restarted the browser and logged in on either login. On success every earlier attempt failed. On failure all `max_retries` attempts were made. |
| ProjudiApi.DoomedNumbers | ANTIGOS/projudi_api.py:264-280 | A number is doomed exactly when some pooled session with it is unhealthy, idle over 1200 seconds, or idle over 600 seconds with a failed preventive refresh. |
| ProjudiApi.Keep | ANTIGOS/projudi_api.py:283-287 | Removal never lengthens the list. |
| ProjudiApi.KeepMembers | ANTIGOS/projudi_api.py:283-287 | A session survives removal exactly when it was pooled and its number is not removed. |
| ProjudiApi.KeepIncreasing | ANTIGOS/projudi_api.py:283-287 | Removal keeps the numbers increasing. |
| ProjudiApi.KeepKeep | ANTIGOS/projudi_api.py:283-287 | Removing one set of numbers and then another is removing their union. |
| ProjudiApi.ReleaseThenRemove | ANTIGOS/projudi_api.py:283-287 | Releasing a session and then removing it leaves the same pool as removing it alone. |
| ProjudiApi.Survivors | ANTIGOS/projudi_api.py:258-297 | Maintenance never lengthens the pool and keeps increasing numbers increasing. |
| ProjudiApi.SurvivorsExact | ANTIGOS/projudi_api.py:258-297 | In a pool with unique numbers, maintenance keeps exactly the sessions that are not doomed. |
| ProjudiApi.MaintainKeepsValid | ANTIGOS/projudi_api.py:258-297 | Maintenance keeps the pool invariant. |
| ProjudiApi.LeaseBusy | ANTIGOS/session_pool.py:214-230 | After a lease the busy numbers are those busy before plus at most the leased one. |
| ProjudiApi.ReleaseBusy | ANTIGOS/session_pool.py:235-240 | After releasing a number it is no longer busy, and no other number becomes busy. |
| ProjudiApi.KeepBusy | ANTIGOS/projudi_api.py:283-287 | Removing sessions makes no session busy. |
| ProjudiApi.HealthLeaseKeepsValid | ANTIGOS/projudi_api.py:305-324 | Maintenance, a lease and the release of an unhealthy, unrefreshable session together keep the pool invariant. |
| ProjudiApi.HealthLeaseBusy | ANTIGOS/projudi_api.py:305-324 | The health-checked lease marks busy at most the session it hands out. |
| ProjudiApi.BuscaAttemptStep | ANTIGOS/projudi_api.py:1396-1597 | Only attempts before the fifth can go round again. |
| ProjudiApi.AttemptWithSession | ANTIGOS/projudi_api.py:1402-1597 | Once a session is leased, only attempts before the fifth can go round again. |
| ProjudiApi.RunKeepsValid | ANTIGOS/projudi_api.py:1396 | A loop whose every attempt keeps the pool invariant keeps it to the end. |
| ProjudiApi.RunKeepsIdle | ANTIGOS/projudi_api.py:1396 | A loop whose every attempt makes no session busy leaves none busy at the end. |
| ProjudiApi.SearchStepKeepsValid | ANTIGOS/projudi_api.py:1396-1597 | Every attempt of the search, as written or corrected, keeps the pool invariant. |
| ProjudiApi.SearchStepReleases | ANTIGOS/projudi_api.py:1409-1437 | With the session released before each retry, no attempt leaves a new session busy. |
| ProjudiApi.AttemptKeepsValid | ANTIGOS/projudi_api.py:1396-1597 | One attempt keeps the pool invariant. |
| ProjudiApi.CorrectedAttemptReleases | ANTIGOS/projudi_api.py:1409-1437 | With the release before a retry, one attempt leaves no new session busy. |
| ProjudiApi.BuscaFrom | ANTIGOS/projudi_api.py:1388-1597 | The whole search keeps the pool invariant. With the release before each retry it also leaves no session busy that was idle when it began. |
| ProjudiApi.RunDone | ANTIGOS/projudi_api.py:1396-1404 | An attempt that ends the search decides the loop's pool and reply. |
| ProjudiApi.TraceReaches | ANTIGOS/projudi_api.py:1396 | Along attempts that each went round, the loop from any of them ends as the loop from the last one. |
| ProjudiApi.RetryWithoutReleaseExhaustsPool | ANTIGOS/projudi_api.py:1409-1416 | With one browser allowed, a first login failure whose refresh works keeps the session busy. The second attempt finds the pool full and the search replies that no session could be had. |
| ProjudiApi.FirstAttemptKeepsSession | ANTIGOS/projudi_api.py:1409-1414 | The first attempt leases a new session, fails to log in, refreshes and goes round still holding it busy. |
| ProjudiApi.SecondAttemptFindsPoolFull | ANTIGOS/projudi_api.py:1401-1404 | The second attempt finds its only session busy and the pool full, and replies that no session could be had. |
| ProjudiApi.RetryThenDone | ANTIGOS/projudi_api.py:1396-1414 | A search whose first attempt goes round and whose second ends replies with the second attempt's pool and reply. |
| ProjudiApi.HandleError | ANTIGOS/projudi_api.py:49-72 | The broken session is released and removed, and the counter moves on by one. A replacement comes back exactly when its browser starts. It is idle and numbered by the new counter. |
| ProjudiApi.HandleErrorSteps | ANTIGOS/projudi_api.py:52-66 | Error handling is a release, then a removal, then a session creation. |
| ProjudiApi.ReplacementOutsidePool | ANTIGOS/projudi_api.py:65-69 | No pooled session carries the replacement's number, so the pool cap, the status counts and cleanup never see it. |
| ProjudiApi.PooledReplacementIsLeased | ANTIGOS/projudi_api.py:49-72 | The corrected handler keeps the pool invariant. A replacement it hands out is pooled and busy. Every other session was pooled before and is not the broken one. |
| ProjudiApi.ProjudiApi.constructor | ANTIGOS/projudi_api.py:42-45 | The pool is new, takes its cap from the environment alone, and starts empty with counter 0. |
| ProjudiApi.ProjudiApi.MaintainSessionPool | ANTIGOS/projudi_api.py:258-303 | The collect pass and the removal pass leave exactly the survivors. The counter is unchanged. |
| ProjudiApi.ProjudiApi.RemoveSessions | ANTIGOS/projudi_api.py:283-297 | Releasing and removing each listed number leaves the pool without those numbers. |
| ProjudiApi.ProjudiApi.GetSessionWithHealthCheck | ANTIGOS/projudi_api.py:305-324 | The pool and the leased number are those of the health-checked lease function. |
| ProjudiApi.ProjudiApi.ProcessarBusca | ANTIGOS/projudi_api.py:1388-1597 | The attempt loop leaves the pool and gives the reply of the search function as written, with no release before a retry. |
| ProjudiApi.ProjudiApi.BuscaAttemptOnce | ANTIGOS/projudi_api.py:1397-1597 | One pass moves the pool as the attempt function says. It ends the loop exactly when that attempt is final, with its reply. |
| ProjudiApi.ProjudiApi.SearchWithSession | ANTIGOS/projudi_api.py:1402-1597 | The login, the search and the retry decision move the pool as the attempt function says, with the same reply. |
| ProjudiApi.ProjudiApi.HandleSessionError | ANTIGOS/projudi_api.py:49-72 | The pool and the replacement are those of the error function as written. |
| ProjudiApi.ProjudiApi.Discard | ANTIGOS/projudi_api.py:54-56 | Only the session with the given number leaves the list. The counter is unchanged. |
| ProjudiNavigation.LimitRows | ANTIGOS/projudi_api.py:1940-1945 | The result is a prefix of the rows. 'ultimas3' keeps at most three rows. A positive n keeps at most n, and a negative n drops n rows from the end. A falsy limit or any other text keeps every row. |
| ProjudiNavigation.RecordOf | ANTIGOS/projudi_api.py:1996-2008 | A digit-string number is read as an integer. Any other number becomes one more than the records taken so far. Every other field is the row's own. |
| ProjudiNavigation.NavRecordsAreAcceptedRows | ANTIGOS/projudi_api.py:1947-2018 | The loop makes one record per accepted row, in order. The j-th record is numbered as if j records came before it. |
| ProjudiNavigation.ExtractNavigationMovements | ANTIGOS/projudi_api.py:1932-2024 | The result is the accepted rows' records after the limit, sorted by number. It is a permutation of them and is in ascending order. |
| ProjudiNavigation.Ultimas3TakesFirstRows | ANTIGOS/projudi_api.py:1942-1943 | With 'ultimas3' at most three movements come back. |
| ProjudiNavigation.UniqueByUrl | ANTIGOS/projudi_api.py:2185-2191 | After de-duplication no URL appears twice and every URL is kept. The first link with each URL is kept. |
| ProjudiNavigation.UniqueAnexos | ANTIGOS/projudi_api.py:2185-2194 | The loop with the set of seen URLs gives the first-occurrence de-duplication. |
| ProcessoMovimentacoes.FirstClose | nivel_2/processo.py:1044 | The index found holds the first '>'. No index means the text has no '>'. |
| ProcessoMovimentacoes.StripTags | nivel_2/processo.py:1044 | Removing tags never lengthens the text. |
| ProcessoMovimentacoes.StripTagsNoAngle | nivel_2/processo.py:1044 | Text without '<' comes back unchanged. |
| ProcessoMovimentacoes.TagRemoved | nivel_2/processo.py:1044 | A complete non-empty tag at the front is dropped, and the rest is scanned as if it stood alone. |
| ProcessoMovimentacoes.CleanText | nivel_2/processo.py:1044-1047 | The result is no longer than the input, has no space at either end and no two adjacent spaces. |
| ProcessoMovimentacoes.LimparTipo | nivel_2/processo.py:1038-1049 | An empty type becomes "Movimentação". Any other is the cleaned text. |
| ProcessoMovimentacoes.LimparDescricao | nivel_2/processo.py:1051-1062 | The description is the cleaned text, so an empty one stays empty. |
| ProcessoMovimentacoes.UserPrefixLength | nivel_2/processo.py:1079 | The matched prefix never runs past the text. |
| ProcessoMovimentacoes.LimparUsuario | nivel_2/processo.py:1073-1084 | An empty name stays empty. A name without the prefix only has its whitespace normalised. |
| ProcessoMovimentacoes.PorPrefixRemoved | nivel_2/processo.py:1079-1082 | "Por: " before a name is removed whatever the case, leaving the normalised name. |
| ProcessoMovimentacoes.DigitsSlashAt | nivel_2/processo.py:1070 | A match of one or two digits is followed by a character inside the text. |
| ProcessoMovimentacoes.DateMatchAt | nivel_2/processo.py:1070 | A date match starting at i ends inside the text. |
| ProcessoMovimentacoes.MatchIsDateShaped | nivel_2/processo.py:1070 | What the pattern matches has the shape d/m/yyyy with one or two digits for day and month. |
| ProcessoMovimentacoes.FirstDateShaped | nivel_2/processo.py:1070 | The first match found by the search has the shape of a date. |
| ProcessoMovimentacoes.DateShapedMatchesWhole | nivel_2/processo.py:1070 | A text shaped like a date is matched whole from its start. |
| ProcessoMovimentacoes.NormalizarData | nivel_2/processo.py:1064-1071 | An empty date stays empty. Text with no date in it is kept as it is. Otherwise the result has the shape of a date. |
| ProcessoMovimentacoes.NormalizarDataIdempotent | nivel_2/processo.py:1064-1071 | Normalising a date twice gives the same as normalising it once. |
| ProcessoMovimentacoes.Processar | nivel_2/processo.py:997-1006 | The number, attachment flag, movement id and attachment code are kept. The text fields are cleaned by their own cleaners. The process number and the HTML go back to their empty defaults. |
| ProcessoMovimentacoes.ProcessarMovimentacoes | nivel_2/processo.py:991-1010 | One cleaned movement per input, in the same order. |
| ProcessoMovimentacoes.Mapear | nivel_2/processo.py:993-1008 | The append loop gives f of every element, in order. |
| ProcessoMovimentacoes.DayToken | nivel_2/processo.py:1025 | A day accepted by the `%d` directive lies between 1 and 31. |
| ProcessoMovimentacoes.MonthToken | nivel_2/processo.py:1025 | A month accepted by the `%m` directive lies between 1 and 12. |
| ProcessoMovimentacoes.AfterFirst | nivel_2/processo.py:1025 | The text after a separator is no longer than the whole. |
| ProcessoMovimentacoes.OrdenarIsDescendingPermutation | nivel_2/processo.py:1012-1036 | The result is a permutation of the input. When every number is positive it is in descending number order. Otherwise, with some movement dated, it is in descending date order. Otherwise the input order is kept. |
| ProcessoMovimentacoes.OrdenarKeepsOrdered | nivel_2/processo.py:1016-1017 | Positive numbers already in descending order are left as they are. |
| ProcessoMovimentacoes.Limitar | nivel_2/processo.py:450-451 | The result is a prefix of the list. |
| ProcessoMovimentacoes.LimitarLength | nivel_2/processo.py:450-451 | No limit or 0 keeps every movement. A positive limit keeps the smaller of the limit and the count. A negative one drops that many from the end. |
| ProcessoMovimentacoes.PosProcessar | nivel_2/processo.py:438-452 | The result is the movements cleaned one by one, ordered and then limited. |
| ProcessoPartes.TipoParteContexto | nivel_2/processo.py:1890-1897 | Active exactly when the context contains "POLO ATIVO", "REQUERENTE" or "AUTOR". Passive exactly when it contains none of those and one of "POLO PASSIVO", "REQUERIDO" or "RÉU". |
| ProcessoPartes.PassiveContextIsPassive | nivel_2/processo.py:1890-1897 | A context mentioning "REQUERIDO" and none of the active words is classed as passive. |
| ProcessoPartes.FieldCount | nivel_2/processo.py:1777-1782 | At most five fields, and zero exactly when document, address, phone, e-mail and lawyer are all empty. |
| ProcessoPartes.FirstWithNorm | nivel_2/processo.py:1756-1760 | The position found is the first one from `from` whose normalised name matches. No position means no kept party from there has that name. |
| ProcessoPartes.ReplaceKeepsNorms | nivel_2/processo.py:1759 | Replacing a kept party by one with the same normalised name keeps the set of names. |
| ProcessoPartes.AppendNorms | nivel_2/processo.py:1752-1753 | Appending a party adds its normalised name to the set of names. |
| ProcessoPartes.ReplaceIfMoreComplete | nivel_2/processo.py:1754-1760 | The search stops at the first kept party with the same name. It replaces that party when the new one has strictly more fields. |
| ProcessoPartes.RemoverDuplicatasLista | nivel_2/processo.py:1746-1760 | The loop over one category gives that category de-duplicated by name. |
| ProcessoPartes.RemoverDuplicatasPartes | nivel_2/processo.py:1741-1762 | Each of the three categories is de-duplicated on its own. |
| ProcessoPartes.StepNorms | nivel_2/processo.py:1748-1760 | One step adds the party's name to the set of names when it is not empty, and adds no other name. |
| ProcessoPartes.StepUnique | nivel_2/processo.py:1748-1760 | One step keeps the kept names unique. |
| ProcessoPartes.StepMembers | nivel_2/processo.py:1748-1760 | After one step every kept party was kept before or is the new party. |
| ProcessoPartes.DedupPartesUnique | nivel_2/processo.py:1745-1762 | Exactly one party is kept per non-empty normalised name of the input, and every kept party comes from the input. Parties with an empty name are dropped. |
| ProcessoPartes.DedupPartesKeepsMostComplete | nivel_2/processo.py:1754-1782 | For each input party with a non-empty name, the kept party with that name has at least as many filled fields. |
| ProcessoPartes.StepKeepsBound | nivel_2/processo.py:1754-1760 | One step keeps each kept party's name, and its field count never drops. |
| ProcessoPartes.StepTakesLast | nivel_2/processo.py:1748-1760 | After a step over a party with a non-empty name, the kept party with that name has at least its fields. |
| ProcessoPartes.DedupPartesOrder | nivel_2/processo.py:1748-1760 | The kept parties are in the order in which their names first appear in the input. A later, more complete duplicate takes the earlier one's place. |
| AnexosAvancado.AnexosValidos | ANTIGOS/PLUS/projudi_anexos_avancado.py:1545-1555 | True exactly when every attachment entry passes the check. |
| AnexosAvancado.AnexosAceitos | ANTIGOS/PLUS/projudi_anexos_avancado.py:1545 | Only a list, an empty dictionary or an empty string can pass, since iterating anything else yields keys or characters that fail the entry check. |
| AnexosAvancado.ValidarResultado | ANTIGOS/PLUS/projudi_anexos_avancado.py:1531-1577 | An accepted result exists, has the five required keys, has attachments that pass, and has a dictionary of parties. |
| AnexosAvancado.ValidarRejects | ANTIGOS/PLUS/projudi_anexos_avancado.py:1538-1555 | A missing required key is rejected, and so is an attachment with a negative text size. |
| AnexosAvancado.ValidarAccepts | ANTIGOS/PLUS/projudi_anexos_avancado.py:1531-1572 | A result with the five keys, valid attachment entries and all three poles as lists is accepted. |
| AnexosAvancado.DeterminarTipoParte | ANTIGOS/PLUS/projudi_anexos_avancado.py:1822-1837 | the first of "promovente", "promovido", "citado", "réu", "autor" that the lower-cased text contains decides the kind, one if-and-only-if per kind: "Promovente" exactly when it contains "promovente"; "Promovido" exactly when it contains "promovido" but not "promovente"; and so on down the list; the generic "Parte" exactly when it contains none of the five words |
| AnexosAvancado.TipoParteIgnoresCase | ANTIGOS/PLUS/projudi_anexos_avancado.py:1824 | The type does not depend on the case of the text. |
| AnexosAvancado.JsCodeAt | ANTIGOS/PLUS/projudi_anexos_avancado.py:473 | A captured code is non-empty and has no quote. |
| AnexosAvancado.DigitRun | ANTIGOS/PLUS/projudi_anexos_avancado.py:489 | The run is the longest all-digit prefix. |
| AnexosAvancado.MarkerIdAt | ANTIGOS/PLUS/projudi_anexos_avancado.py:489-509 | A captured id is a non-empty string of digits. |
| AnexosAvancado.ExtrairIdsAnexosCelula | ANTIGOS/PLUS/projudi_anexos_avancado.py:461-541 | The loops give the ids of the three strategies in turn, or the movement-id fallback when they find nothing. |
| AnexosAvancado.BuscarViaJavascript | ANTIGOS/PLUS/projudi_anexos_avancado.py:469-482 | The loop gives one entry per link calling the javascript search, in link order. |
| AnexosAvancado.BuscarViaHref | ANTIGOS/PLUS/projudi_anexos_avancado.py:485-501 | The loop appends, in order, each link id not yet in the list. |
| AnexosAvancado.BuscarViaOnclick | ANTIGOS/PLUS/projudi_anexos_avancado.py:506-521 | The loop appends, in order, each onclick id not yet in the list, with a built link. |
| AnexosAvancado.HrefStepKeepsNew | ANTIGOS/PLUS/projudi_anexos_avancado.py:495-515 | A step of the second or third strategy keeps every entry past the javascript ones distinct from all the entries before it. |
| AnexosAvancado.HrefAndOnclickAddNoDuplicate | ANTIGOS/PLUS/projudi_anexos_avancado.py:484-521 | The second and third strategies never add an id already in the list. Only the javascript entries can repeat one another. |
| AnexosAvancado.FallbackOnlyWhenNothingFound | ANTIGOS/PLUS/projudi_anexos_avancado.py:523-537 | A movement-id entry appears exactly when the three strategies found nothing and the row carries an id. |
| AnexosAvancado.AnexosDoItem | ANTIGOS/PLUS/projudi_anexos_avancado.py:220-233 | An item has no more attachments than links. |
| AnexosAvancado.IndexOfNumero | ANTIGOS/PLUS/projudi_anexos_avancado.py:264 | The position found holds the group with that number. No position means no group has it. |
| AnexosAvancado.Put | ANTIGOS/PLUS/projudi_anexos_avancado.py:237-241 | Storing a group adds at most one entry. |
| AnexosAvancado.AgruparMovimentacoes | ANTIGOS/PLUS/projudi_anexos_avancado.py:189-275 | The item loop, and the link loop when the items gave nothing, give the grouping function's groups. |
| AnexosAvancado.PutKeepsDistinct | ANTIGOS/PLUS/projudi_anexos_avancado.py:237-241 | Storing a group keeps the numbers distinct. |
| AnexosAvancado.AgruparDistinct | ANTIGOS/PLUS/projudi_anexos_avancado.py:189-275 | No two groups share a number, and every number is non-negative because it is read from digits. |
| AnexosAvancado.SelecionarTakesHighest | ANTIGOS/PLUS/projudi_anexos_avancado.py:280-281 | For n at least 0 the smaller of n and the group count is taken. The selection is in strictly descending number order, and every group left out has a lower number than every group taken. |
| AnexosAvancado.UnselectedBelow | ANTIGOS/PLUS/projudi_anexos_avancado.py:280-281 | A group outside the first m of the descending order is below all of them. |
| AnexosAvancado.DistinctSorted | ANTIGOS/PLUS/projudi_anexos_avancado.py:280 | Sorting distinct numbers in reverse makes them strictly descending. |
| AnexosAvancado.ProcessarPdf | ANTIGOS/PLUS/projudi_anexos_avancado.py:1290-1316 | The entry carries the id, the name and the path. A missing path or file gives an unprocessed, empty entry marked "arquivo_nao_encontrado". Otherwise the content, size, flag and method are the extractor's. |
| AnexosAvancado.ProcessarPdfsBaixados | ANTIGOS/PLUS/projudi_anexos_avancado.py:1283-1318 | The result has exactly the downloaded ids as keys, each with its own entry. |
| IframeAnexos.PrimeiraData | ANTIGOS/PLUS/extrair_anexos_iframe_correto.py:647-649 | the first match of `dd/dd/dddd` in the line (`findall(...)[0]`): a non-empty result is the ten characters at a position where the pattern matches, and it matches at no earlier position; the result is empty exactly when the pattern matches nowhere |
| IframeAnexos.Coletar | ANTIGOS/PLUS/extrair_anexos_iframe_correto.py:625-711 | A strategy collects no more entries than links. Each entry is a link carrying the marker, with text. |
| IframeAnexos.ColetarLinks | ANTIGOS/PLUS/extrair_anexos_iframe_correto.py:630-659 | One strategy's loop gives that strategy's entries in link order. |
| IframeAnexos.ColetarMovimentacoes | ANTIGOS/PLUS/extrair_anexos_iframe_correto.py:592-711 | the extraction stops with no attachment exactly when no tab URL contains the navigation marker; otherwise the three strategies in turn give the entries of the first that finds any |
| IframeAnexos.EncontradasSaoAnexos | ANTIGOS/PLUS/extrair_anexos_iframe_correto.py:635-703 | Every entry is an attachment link with text, and its id is the text after the last marker up to the first '&'. |
| IframeAnexos.Ultimas | ANTIGOS/PLUS/extrair_anexos_iframe_correto.py:716-717 | The selection is never longer than the entries found. |
| IframeAnexos.UltimasNewestFirst | ANTIGOS/PLUS/extrair_anexos_iframe_correto.py:716-717 | For a positive n the selection is the last min(n, found) entries, the last found first. |
| IframeAnexos.UltimasZeroSelectsAll | ANTIGOS/PLUS/extrair_anexos_iframe_correto.py:716-717 | Asking for zero attachments selects all of them, reversed, because `[-0:]` is the whole list. |
| IframeAnexos.LimparTextoIframe | ANTIGOS/PLUS/extrair_anexos_iframe_correto.py:432-439 | Text of at most 10000 characters after normalising is kept whole. Longer text keeps its first 10000 characters followed by "...". |
| IframeAnexos.TextoLimitado | ANTIGOS/PLUS/extrair_anexos_iframe_correto.py:437-439 | The cleaned text never exceeds 10003 characters. |
| IframeAnexos.IsPdfIsMentionOfPdf | ANTIGOS/PLUS/extrair_anexos_iframe_correto.py:419-421 | The PDF test holds exactly when the lower-cased HTML mentions "pdf". The second test adds nothing. |
| IframeAnexos.ExtraidoCampos | ANTIGOS/PLUS/extrair_anexos_iframe_correto.py:753-779 | A record carries its position, the attachment's name, id and date, and the cleaned iframe text with its length. A download happens exactly when the page is a PDF or the name ends in ".pdf", and the download works. |
| IframeAnexos.Posicoes | ANTIGOS/PLUS/extrair_anexos_iframe_correto.py:723-748 | Every recorded position lies between 1 and the selection size. |
| IframeAnexos.PosicoesClicadas | ANTIGOS/PLUS/extrair_anexos_iframe_correto.py:748 | Every recorded position is that of an entry whose link could be clicked. |
| IframeAnexos.PosicoesCrescentes | ANTIGOS/PLUS/extrair_anexos_iframe_correto.py:723 | Positions strictly increase: selection order, at most one record per entry. |
| IframeAnexos.PosicoesCompletas | ANTIGOS/PLUS/extrair_anexos_iframe_correto.py:723-789 | Every entry whose link could be clicked is recorded. |
| IframeAnexos.RegistrosPorPosicao | ANTIGOS/PLUS/extrair_anexos_iframe_correto.py:723-781 | There is one record per clickable position, and the k-th record is built from the k-th position's entry. |
| IframeAnexos.ExtrairSelecionados | ANTIGOS/PLUS/extrair_anexos_iframe_correto.py:721-794 | The loop gives the records of the clickable entries of the selection. |
| IframeAnexos.ExtracaoPorPosicao | ANTIGOS/PLUS/extrair_anexos_iframe_correto.py:723-781 | The k-th record is the extraction of the k-th clickable entry, opened by its id, with its position as index. |
| IframeAnexos.ExtracaoEmOrdem | ANTIGOS/PLUS/extrair_anexos_iframe_correto.py:723-769 | Each record's index is its entry's position, and indices strictly increase. |
| IframeAnexos.DaEstrategia | ANTIGOS/PLUS/extrair_anexos_iframe_correto.py:66-76 | A strategy yields at most one party per element. Each is tagged with the strategy and has text longer than 15 characters. |
| IframeAnexos.PrimeiraQueRende | ANTIGOS/PLUS/extrair_anexos_iframe_correto.py:61-80 | At most 15 parties, each longer than 15 characters, all from one strategy. |
| IframeAnexos.DaTabela | ANTIGOS/PLUS/extrair_anexos_iframe_correto.py:90-100 | A table yields at most one party per row, numbered after the parties before it and tagged with its table. |
| IframeAnexos.DasTabelas | ANTIGOS/PLUS/extrair_anexos_iframe_correto.py:83-100 | The fallback numbers its parties 1, 2, ... and keeps only rows that look like parties. |
| IframeAnexos.PartesLimites | ANTIGOS/PLUS/extrair_anexos_iframe_correto.py:46-105 | Parties from a strategy number at most 15, each longer than 15 characters, all from that strategy. When no strategy yields, the parties are table rows numbered from 1, each longer than 20 characters. |
| IframeAnexos.PartesDaEstrategia | ANTIGOS/PLUS/extrair_anexos_iframe_correto.py:66-76 | One strategy's loop gives that strategy's parties. |
| IframeAnexos.PartesDaTabela | ANTIGOS/PLUS/extrair_anexos_iframe_correto.py:90-100 | One table's loop appends that table's parties after the ones already found. |
| IframeAnexos.PartesDasTabelas | ANTIGOS/PLUS/extrair_anexos_iframe_correto.py:88-100 | The loop over the tables gives the fallback's parties. |
| IframeAnexos.PrimeiraEstrategia | ANTIGOS/PLUS/extrair_anexos_iframe_correto.py:61-80 | The loop over the strategies stops at the first one that yields. |
| IframeAnexos.ColetarPartes | ANTIGOS/PLUS/extrair_anexos_iframe_correto.py:33-105 | a page showing the expired-session message gives no party, a count of 0 and the error "Sessão expirada"; any other page gives the collected parties, a count equal to their number and no error |
| AnexoLinks.LastPiece | ANTIGOS/PLUS/extrair_anexos_iframe_correto.py:637 | The last piece of a split is a suffix of the text. |
| AnexoLinks.IdArquivo | ANTIGOS/PLUS/extrair_anexos_iframe_correto.py:637 | The id holds no '&'. |
| AnexoLinks.LastPieceFromHasNoSep | ANTIGOS/PLUS/extrair_anexos_iframe_correto.py:637 | The last piece of a split never contains the separator. |
| AnexoLinks.IdComesAfterLastMarker | ANTIGOS/PLUS/extrair_anexos_iframe_correto.py:637 | The piece after the last marker holds no marker, and the id is a prefix of that piece. |
| AnexoLinks.NoMarkerWholeLink | ANTIGOS/PLUS/extrair_anexos_iframe_correto.py:637 | A link with no marker is its own last piece, so its id is its text up to the first '&'. |
| AnexoLinks.MarkerThenId | ANTIGOS/PLUS/extrair_anexos_iframe_correto.py:637 | A link whose one marker is followed by an id without '&' or marker yields that id. |
| ApiMain.AplicarSoInformadas | api/main.py:374-393 | applying custom credentials overwrites exactly the supplied fields and records the previous value of each of them; nothing is recorded and nothing changes when none is supplied |
| ApiMain.RestaurarDesfazAplicar | api/main.py:396-405 | restoring the recorded values after applying gives back the original credentials |
| ApiMain.Settings.constructor | api/main.py:374-405 | the settings object starts with the given credentials |
| ApiMain.Settings.AplicarCredenciaisCustomizadas | api/main.py:374-393 | the settings become the applied credentials and the returned record holds the overwritten values |
| ApiMain.Settings.RestaurarCredenciaisOriginais | api/main.py:396-405 | the settings become the old ones with every recorded field put back |
| ApiMain.NumeroCnjEhEspecifico | api/main.py:93-101 | a value in the CNJ process-number mask is searched directly at level 2, whatever the declared type |
| ApiMain.CpfOuNomeNaoEhEspecifico | api/main.py:93-101 | a CPF, a name, or a value of at most ten characters, declared as CPF or name, goes through the level-1 search |
| ApiMain.MovimentacoesParaResposta | api/main.py:280-291 | the response movements are the process movements converted one by one in order |
| ApiMain.AnexosParaResposta | api/main.py:337-351 | the response attachments are the processed attachments converted one by one in order |
| ApiMain.ConversaoPreservaListas | api/main.py:273-371 | the detailed process keeps the number, class, subject, status, both dates, claim value and court. Each movement keeps, in order, its number, type, description, date, user and attachment flag and nothing else: the declared response has neither the access id nor the movement's process number, which the conversion passes and pydantic drops. It keeps the three party lists, and each attachment's id and processing flag in order. Each total is its list's length, and the party total is the sum of the three |
| ApiMain.Detalhados | api/main.py:177-235 | at most one detailed process per listed process |
| ApiMain.DetalhadosDosListados | api/main.py:181-235 | every detailed process comes from a listed process whose access and extraction succeeded |
| ApiMain.ListadosDetalhados | api/main.py:181-235 | every listed process whose access and extraction succeed appears among the detailed ones; a failing one is skipped |
| ApiMain.ListaSimples | api/main.py:166-175 | the simple list has one entry per found process, in level 1's order |
| ApiMain.RespostaConsistente | api/main.py:80-270 | the response is an error exactly on the exception, direct-not-found and failed-search paths, then with a message and no process; on success the total is the simple list's length, details are at most that many and none without movements; the direct path reports id "processo_direto" and index 1 |
| ApiMain.CredenciaisFicamAplicadas | api/main.py:103-163 | as written, a changed user stays applied after the direct and the failed-search returns, which skip the restore |
| ApiMain.CredenciaisSempreRestauradas | api/main.py:250-261 | with the restore on every path the settings end as they began |
| ApiMain.ProcessarListados | api/main.py:180-235 | the loop over the listed processes collects exactly the detailed ones |
| ApiMain.ProcessarBuscaCompleta | api/main.py:73-270 | returns the response of the search and leaves the credentials as the source does, restored only on the final and exception paths |
| ApiMain.ProcessarBuscaCompletaRestaurando | api/main.py:73-270 | returns the same response and leaves the settings as they were before the call |
| ApiMain.Antigas | api/main.py:641-644 | the old requests are among the active ones |
| ApiMain.CleanupRemoveAntigas | api/main.py:639-652 | cleanup keeps exactly the entries at most an hour old, unchanged, and the removed count plus the kept count is the number of active requests |
| ApiMain.LimparIdempotente | api/main.py:734-741 | removing an id once or twice is the same, an absent id changes nothing, and afterwards the id is gone |
| ApiMain.RequisicoesAtivas.constructor | api/main.py:495-499 | the active-request table starts empty |
| ApiMain.RequisicoesAtivas.Registrar | api/main.py:495-499 | the request is entered as processing with its start time and request |
| ApiMain.RequisicoesAtivas.Concluir | api/main.py:506-507 | the entry is marked completed with the response, all else unchanged |
| ApiMain.RequisicoesAtivas.Cleanup | api/main.py:632-654 | the table loses exactly the old entries and the returned count is their number |
| ApiMain.RequisicoesAtivas.LimparRequisicaoAtiva | api/main.py:734-741 | the table loses the id and nothing else |
| ApiMain.SobrescreverEntrada | api/main.py:495-507 | writing a key twice leaves only the second value |
| ApiMain.Buscar | api/main.py:484-528 | a blank value is a 400 that changes nothing; otherwise the response of the search, with the request entered as completed with that response |
| ApiMain.BuscarN8N | api/main.py:530-545 | a body that does not convert is a 400 carrying the validation message; a converted one with a blank value is a 500 whose detail is "400: " followed by the blank-value message, because the 400 of `/buscar` is not a `ValueError` and the generic handler answers with its text; otherwise it gives the response of the converted search |
| ApiMain.ChaveInjetiva | api/main.py:566-588 | distinct positions get distinct result keys |
| ApiMain.Aplicados | api/main.py:584-597 | one result per search, the i-th being the run of the i-th search |
| ApiMain.AplicadosPasso | api/main.py:584-597 | running one more search appends its result |
| ApiMain.IndexadosPasso | api/main.py:588 | indexing one more result adds exactly its key |
| ApiMain.IndexadosPorChave | api/main.py:584-597 | with injective keys every result is found under its own key, every key belongs to a position, and there are as many entries as results |
| ApiMain.ResultadosPorChave | api/main.py:584-597 | the result map holds every search's result under busca_i and nothing else |
| ApiMain.Contagem | api/main.py:601 | the success count is at most the number of results |
| ApiMain.ContagemExtremos | api/main.py:601-608 | the count equals the total exactly when every result succeeds, and is zero exactly when none does |
| ApiMain.StatusDaContagem | api/main.py:603-608 | the status is "success" iff all succeed, "error" iff none, "partial" iff some do and some do not |
| ApiMain.StatusDoLote | api/main.py:599-616 | the batch status is "success" iff every search succeeded, "error" iff none did, "partial" otherwise |
| ApiMain.ResultadosDoLote | api/main.py:557-616 | the batch reports every search as completed, each under its own key with its response or the error response carrying the exception's message |
| ApiMain.BuscarMultiplo | api/main.py:547-616 | an empty list and more than ten searches are 400s with the source's messages; otherwise the batch response |
| ApiMain.ExecutarLote | api/main.py:582-597 | the loop runs each search in turn and fills the result map by key |
| ApiMain.StatusDosResultados | api/main.py:599-608 | the loop's status is the status of the success count |
| ApiModels.ConverterValor | api/models.py:28-38 | the three flag names become booleans, true iff the lower-cased value is "true", "1", "yes" or "sim"; a non-empty limit becomes its integer, or None when it is not one; every other parameter, and an empty limit, stays its text |
| ApiModels.ConverterValorCorrigido | api/models.py:32-38 | the corrected conversion always turns the limit into an integer or None, and agrees with the source on everything else |
| ApiModels.ColetarChaves | api/models.py:26-38 | the collected parameters have exactly the names that occur in the list |
| ApiModels.UltimoVence | api/models.py:27-38 | a later parameter of the same name overwrites an earlier one: the last occurrence's converted value wins |
| ApiModels.SoParameters | api/models.py:26-27 | only the "parameters" list of the body is read; the other keys are ignored |
| ApiModels.PreencherMantem | api/models.py:48-50 | filling one default adds its key, keeps every existing value, and sets the default only when the key was absent |
| ApiModels.PreencherChaves | api/models.py:48-50 | after filling, the keys are the supplied ones plus the default keys |
| ApiModels.PreencherMantemFornecidos | api/models.py:48-50 | filling never overwrites a supplied value |
| ApiModels.PreencherAusentes | api/models.py:48-50 | every absent key gets its first default value |
| ApiModels.PrimeiraVezNoPrefixo | api/models.py:48-50 | a key that first occurs at position i also first occurs there in any longer prefix |
| ApiModels.UltimoAusente | api/models.py:48-50 | filling a fresh, absent last default is a plain insertion |
| ApiModels.ComPadroesPreenche | api/models.py:40-50 | the defaults add exactly the four default keys, never overwrite a supplied value, and give each absent key its default |
| ApiModels.ChavesDosPadroes | api/models.py:41-46 | the defaults cover movimentacoes, extrair_anexos, extrair_partes and limite_movimentacoes |
| ApiModels.PadroesDistintos | api/models.py:41-46 | no default key is repeated |
| ApiModels.TipoDe | api/models.py:55 | the search type is accepted iff it is one of the literals "cpf", "nome", "processo" |
| ApiModels.Validar | api/models.py:52-65 | building the request succeeds iff the type is one of the three literals, the value is text and every optional field has a value of its type; a built request carries exactly those values |
| ApiModels.ToBuscaRequest | api/models.py:21-52 | the method returns the conversion of the body |
| ApiModels.ColetarParametros | api/models.py:23-38 | the loop collects exactly the converted parameters, last occurrence winning |
| ApiModels.PreencherPadroes | api/models.py:40-50 | the loop fills exactly the defaults |
| ApiModels.BandeiraSegueUltimo | api/models.py:29-30 | a converted request's flag is on iff its last parameter's lower-cased value is "true", "1", "yes" or "sim" |
| ApiModels.PadroesQuandoAusentes | api/models.py:40-50 | a missing parameter takes its default: movements and parties on, attachments off, no limit |
| ApiModels.LimiteSegueUltimo | api/models.py:32-36 | a non-empty limit is the integer it spells, or no limit when it spells none |
| ApiModels.LimiteVazioRejeitado | api/models.py:32-38 | as written, an empty limit stays text and validation rejects the whole request |
| ApiModels.LimiteVazioSemLimite | api/models.py:32-57 | with the correction an empty limit means no limit, and a converted request then has none |
| Busca.Split | nivel_1/busca.py:402 | splitting gives at least one piece and no piece holds the separator |
| Busca.BeforeFirstJoin | nivel_1/busca.py:402 | the text before the first separator of two joined pieces is the first piece |
| Busca.SplitJoin | nivel_1/busca.py:402 | splitting two pieces joined by the separator gives the two pieces back |
| Busca.Polos | nivel_1/busca.py:403-407 | the party lines are at most the lines given and none is blank or a "Polo" heading |
| Busca.PrimeirasLinhas | nivel_1/busca.py:402-403 | at most the first four lines of the parties cell are read |
| Busca.ClasseDosPolos | nivel_1/busca.py:409-413 | the class is at most 100 characters |
| Busca.Classe | nivel_1/busca.py:402-413 | a row's class is at most 100 characters |
| Busca.PolosVazios | nivel_1/busca.py:405-407 | lines none of which names a party give no party |
| Busca.ClasseSemPolos | nivel_1/busca.py:409 | with no party line among the first four lines the class is "Processo" |
| Busca.StripSemBordas | nivel_1/busca.py:405 | text that starts and ends with a non-space character is its own strip |
| Busca.PolosDeDuas | nivel_1/busca.py:404-407 | two stripped party lines are both kept, in order |
| Busca.ClasseDuasPartes | nivel_1/busca.py:402-413 | two party lines, one per line, give the class "A vs B" |
| Busca.IdAPartirDe | nivel_1/busca.py:474-476 | an id found in the edit button's script is non-empty and holds no quote |
| Busca.IdDaLinha | nivel_1/busca.py:465-483 | a row's process id is never empty: the script's id, or the processo_ fallback from the clock |
| Busca.IdDoBotao | nivel_1/busca.py:474-476 | a script holding the marker then a quoted id gives that id back |
| Busca.Registro | nivel_1/busca.py:386-417 | a row's record carries the stripped number cell and the index it is given |
| Busca.Numerados | nivel_1/busca.py:384-417 | at most one record per data row |
| Busca.NumeradosSaoValidas | nivel_1/busca.py:384-417 | the records are exactly the valid rows in order, the i-th numbered i + 1 |
| Busca.FiltrarLinhasDeDados | nivel_1/busca.py:369-381 | the loop keeps exactly the rows of at least six cells whose third cell does not start with "Número" |
| Busca.ConstruirProcessos | nivel_1/busca.py:384-417 | the loop builds exactly the numbered records of the valid rows |
| Busca.PrimeiroCnj | nivel_1/busca.py:446 | the leftmost position at or after i where a CNJ number starts, and none when no position matches |
| Busca.ProcessoDireto | nivel_1/busca.py:440-463 | a redirected page gives a process iff it holds a CNJ number; that process has the number's shape, id "processo_direto" and index 1 |
| Busca.ProcessosDaPagina | nivel_1/busca.py:341-364 | a redirected page gives at most its one direct process; a page saying nothing was found, or without the table, gives none; otherwise the table's processes |
| Busca.ProcessosDasLinhas | nivel_1/busca.py:366-417 | the table's processes are exactly its valid rows, in row order, the i-th numbered i + 1 |
| Busca.ExtrairProcessosEncontrados | nivel_1/busca.py:341-430 | the extraction returns exactly the page's processes |
| Busca.ExecutarBusca | nivel_1/busca.py:201-270 | the search succeeds iff the result page was reached; the count is the number of processes; a failure lists none, and its message is "Falha no login" exactly for a refused login; a success lists the page's processes |
| Anexos.MetodoDaExtracao | nivel_3/anexos.py:52-151 | the method names the first library, in the order PyMuPDF, PyPDF2, OCR, whose text is not blank, and that text is returned; when none has any, the failure message comes with method "erro" |
| Anexos.OcrIgnoraAlemDaQuinta | nivel_3/anexos.py:112 | pages after the fifth never change the extraction |
| Anexos.TextoDasPaginas | nivel_3/anexos.py:64-67 | the loop concatenates the page texts in order |
| Anexos.TextoDoOcr | nivel_3/anexos.py:112-136 | the loop concatenates the texts of the first five pages whose OCR succeeded, skipping the failed ones |
| Anexos.ExtrairTextoPdfArquivo | nivel_3/anexos.py:52-151 | the method returns the text and method of the extraction |
| Anexos.ProcessarAnexoComoEscrito | nivel_3/anexos.py:419-454 | as written, a record's content size is its content's length and it counts as successful exactly when the content is non-empty |
| Anexos.FalhaPdfContaComoSucesso | nivel_3/anexos.py:446 | as written, a PDF no library can read is recorded as processed successfully, with method "erro" |
| Anexos.ProcessarAnexo | nivel_3/anexos.py:365-390 | the corrected record of the Findings row: a record's content size is its content's length, and it is successful exactly when some text was extracted and the method is not "erro" |
| Anexos.RegistroDoAnexo | nivel_3/anexos.py:365-560 | a record exists iff a PDF was downloaded or the iframe held HTML; it names its movement; a PDF record carries the file, its size, the name anexo_mov_N.pdf and the extraction's text and method; an HTML record the name anexo_mov_N.html, the HTML's length, method "iframe_html" and the whitespace-normalized text |
| Anexos.SelecionadasComAnexo | nivel_3/anexos.py:253-261 | the selection is a prefix of the movements with an attachment, in order; all of them with no limit or a zero one, the first limite for a positive one, none when no movement has an attachment |
| Anexos.AnexosDe | nivel_3/anexos.py:270-279 | at most one record per selected movement, each the record as written |
| Anexos.AnexosDasSelecionadas | nivel_3/anexos.py:270-279 | every record is the as-written record of a selected movement. Its size is its content's length, and it is successful exactly when its content is non-empty. The corrected record of that movement differs only in withdrawing success from the "erro" method |
| Anexos.ExtrairAnexosMovimentacao | nivel_3/anexos.py:284-310 | a movement gives the list of its one as-written record, or the empty list |
| Anexos.ExtrairAnexosMovimentacoes | nivel_3/anexos.py:247-282 | the method returns exactly the records of the selected movements, in order |
| Anexos.ExtrairDasSelecionadas | nivel_3/anexos.py:270-279 | the loop collects exactly the records of the given movements, in order |
| Organizar.OrganizarMovimentacoes | organizar_resultado.py:110-120 | one organised movement per movement, in order |
| Organizar.OrganizarProcessos | organizar_resultado.py:57-126 | one organised process per detailed process, in order, each built by the corrected reading: the access id is absent, because the served process has none |
| Organizar.ProcessoOrganizadoPreserva | organizar_resultado.py:58-124 | an organised process keeps the number, class, claim value, the three party lists, the totals, the attachments, and each movement's number, date and attachment flag in order |
| Organizar.PorChavesIndices | organizar_resultado.py:41-43 | reading busca_0 to busca_(n-1) succeeds exactly when every key is present and its entry transforms without an error. Then there is one value per index, in order, each the transform of its own entry. Otherwise the error is that of the first index that fails: the KeyError of its missing key, or its transform's error |
| Organizar.FalhaPersiste | organizar_resultado.py:41-43 | once a key is missing, reading any longer range fails with the same error |
| Organizar.BuscasPorIndice | organizar_resultado.py:40-62 | as written, reshaping succeeds exactly when every busca_i below the total is present and lists no detailed process. Then there is one organised search per index, in order, numbered from 1, each built from its own entry, with no process. Otherwise the error is that of the first index that fails: the KeyError of its missing key, or the `id_acesso` KeyError when it lists a detailed process |
| Organizar.ComoEscritoSucesso | organizar_resultado.py:40-62 | a successful as-written reshaping read every busca_i below the total, none of them listed a detailed process, and each organised search is built from its own entry |
| Organizar.ComoEscritoFalha | organizar_resultado.py:40-62 | a failed as-written reshaping stopped at a first index: every earlier key is present with no detailed process, and that index's key is missing with its KeyError, or it lists a detailed process with the `id_acesso` KeyError |
| Organizar.ComoEscritoErro | organizar_resultado.py:41-62 | an index the as-written reshaping cannot read fails with the KeyError of its missing key, or, when present, lists a detailed process and fails with the `id_acesso` KeyError |
| Organizar.BuscasPorIndiceCorrigido | organizar_resultado.py:40-128 | corrected, reshaping fails exactly when some busca_i below the total is missing. Otherwise there is one organised search per index, in order, numbered from 1, each built from its own entry |
| Organizar.OrganizarLote | organizar_resultado.py:28-128 | as written, a complete batch answer is organised exactly when none of its searches lists a detailed process. Then there is one organised search per response, in order, each built from it. Otherwise the script fails with the `id_acesso` KeyError |
| Organizar.OrganizarLoteCorrigido | organizar_resultado.py:28-128 | the corrected member of the Findings row: every search of a complete batch answer is organised, in order, numbered from 1, with its own searched value, status and processes, and the summary counts all of them |
| Organizar.OrganizarResultado | organizar_resultado.py:12-145 | the loop returns exactly the as-written reshaping: the organised batch, the KeyError of the first missing key, or the `id_acesso` KeyError at the first search that lists a detailed process |
| Organizar.UltimaMovimentacao | organizar_resultado.py:187 | the last movement shown is the first movement's date, or "N/A" when there is none |
| Organizar.ResumirProcessos | organizar_resultado.py:182-190 | one summary per process, in order |
| Organizar.Cpfs | organizar_resultado.py:177-194 | the CPFs of the searches, in order |
| Organizar.EstatisticasComProcessos | organizar_resultado.py:174-177 | the counters for searches with processes are that group's size, its total of processes and its CPFs in order |
| Organizar.EstatisticasSemProcessos | organizar_resultado.py:192-194 | the counters for searches without processes are that group's size and its CPFs in order |
| Organizar.GruposParticionam | organizar_resultado.py:174-194 | every search falls in exactly one of the two groups |
| Organizar.ContagensSomam | organizar_resultado.py:171-194 | the two counts add up to the number of searches and each CPF list has its count's length |
| Organizar.PorCpfChaves | organizar_resultado.py:180-191 | a CPF has an entry exactly when one of its searches had processes |
| Organizar.PorCpfUltimaBusca | organizar_resultado.py:180-191 | a CPF's entry holds the processes of its last search with processes |
| Organizar.CriarRelatorioResumido | organizar_resultado.py:147-194 | the loop builds exactly the summary report of the searches |
| Relatorio.ValorOuNA | gerar_relatorio_legivel.py:303 | the value shown is never empty: the value itself, or "N/A" for an empty one |
| Relatorio.LinhasDosProcessos | gerar_relatorio_legivel.py:296-310 | one row per process, in order |
| Relatorio.BuscaSemDetalhesSomeDoCsv | gerar_relatorio_legivel.py:295-314 | as written, a search counted with processes whose details are missing writes no row at all |
| Relatorio.LinhasDaBuscaFormato | gerar_relatorio_legivel.py:292-314 | every row has the header's nine columns, starts with the searched CPF and ends with the status; a search writes one row per process or one all-"N/A" row; this agrees with the source except for a counted search without details |
| Relatorio.LinhaDoProcessoConteudo | gerar_relatorio_legivel.py:297-308 | a process row shows its number and class, "N/A" for an empty claim value, the type and date of its first movement or "N/A" for both, and its two totals |
| Relatorio.ConcatenadosOrigem | gerar_relatorio_legivel.py:292-314 | every written row comes from one search's rows |
| Relatorio.ConcatenadosContem | gerar_relatorio_legivel.py:292-314 | every row of every search is written |
| Relatorio.ConcatenadosTamanho | gerar_relatorio_legivel.py:292-314 | when each search writes a row, there are at least as many rows as searches |
| Relatorio.LinhasComoEscritoFormato | gerar_relatorio_legivel.py:292-314 | a search with a positive count writes one row per detailed process, otherwise exactly the all-"N/A" row; every row has nine columns and carries the search's CPF and status |
| Relatorio.LinhasFormato | gerar_relatorio_legivel.py:292-314 | every data row the source writes has nine columns; there are at least as many rows as searches when no counted search lacks details, and always with the corrected rows |
| Relatorio.CadaBuscaTemLinha | gerar_relatorio_legivel.py:292-314 | a search without a positive count, or with some detailed process, has a row carrying its CPF and its status; with the corrected rows every search has one |
| Relatorio.EscritorCsv.constructor | gerar_relatorio_legivel.py:282 | a new writer has written no row |
| Relatorio.EscritorCsv.WriteRow | gerar_relatorio_legivel.py:285-312 | writing appends exactly the row |
| Relatorio.GerarRelatorioCsv | gerar_relatorio_legivel.py:265-317 | the file holds the header then the rows the source writes for every search, in order |
| Relatorio.EscreverBusca | gerar_relatorio_legivel.py:292-314 | one search appends exactly its rows as the source writes them, branching on the count alone |
| Relatorio.PainelConfereComResumo | gerar_relatorio_legivel.py:183-187 | the page's "CPFs com Processos" equals the summary's count of searches with processes, and with no negative count its total equals the summary's total |
| Relatorio.RotuloTermina | gerar_relatorio_legivel.py:210 | the label starts with the number and ends in 's' exactly when it is plural |
| Relatorio.PluralSoSeDiferenteDeUm | gerar_relatorio_legivel.py:210 | the count label starts with the count and is plural exactly when the count is not 1 |
| Relatorio.RotuloDeUm | gerar_relatorio_legivel.py:210 | one process is labelled "1 processo" |
| Relatorio.ConcatenadosPasso | gerar_relatorio_legivel.py:202-245 | one more search appends its section |
| Relatorio.Associa | gerar_relatorio_legivel.py:206-245 | appending in steps gives the same text as appending at once |
| Relatorio.GerarSecoes | gerar_relatorio_legivel.py:202-245 | the loop appends the sections of all searches in order |
| Relatorio.GerarItens | gerar_relatorio_legivel.py:218-232 | the loop builds the items of all processes in order |
| Relatorio.GerarSecao | gerar_relatorio_legivel.py:206-245 | one search's section: its header, then its process list or the no-process notice |
| Relatorio.GerarRelatorioHtml | gerar_relatorio_legivel.py:12-257 | the page is the top, the statistics panel, the sections of all searches and the footer |
| StringUtil.Strip | nivel_1/busca.py:394 | the stripped text has no surrounding whitespace, is no longer than the input, and is empty exactly when the input is all whitespace |
| StringUtil.StripLeft | nivel_1/busca.py:394 | what is removed from the front is whitespace and the rest starts with a non-space |
| StringUtil.StripRight | nivel_1/busca.py:394 | what is removed from the back is whitespace and the rest ends with a non-space |
| StringUtil.NormalizeSpaces | nivel_3/anexos.py:536 | the normalized text has no surrounding whitespace, no two whitespace characters in a row, and every whitespace left is a single space |
| StringUtil.CollapseSpaces | nivel_3/anexos.py:536 | every run of whitespace becomes one space and nothing else changes place |
| StringUtil.ParseInt | api/models.py:34 | a parse succeeds exactly when the stripped text is an optional sign followed by digits, with single underscores allowed between digits. A digit string parses to its value. |
| StringUtil.UnderscoreGroupsParse | api/models.py:34 | `a_b` parses to the value of the digits `ab`, as `int("1_000") == 1000` |
| StringUtil.NatToString | api/main.py:564 | the decimal text of a natural is a digit string whose value is that natural |
| StringUtil.IntToString | api/main.py:564 | the decimal text of an integer parses back to it |
| StringUtil.Lower | api/models.py:30 | lower-casing maps every character through the one-character lower-casing, keeping the length |
| StringUtil.LowerChar | api/models.py:30 | an ASCII capital becomes its small letter; other ASCII characters are unchanged |
| StringUtil.BeforeFirst | ANTIGOS/PLUS/extrair_anexos_iframe_correto.py:637 | the text before the first separator is a prefix with no separator, followed by the separator when shorter than the input |
| ListUtil.SliceIndex | nivel_3/anexos.py:261 | a Python slice bound denotes the index it names within the list, counted from the end when negative and clamped at both ends |
| ListUtil.SliceTo | nivel_3/anexos.py:261 | a slice up to a bound is a prefix of the list |
| ListUtil.SliceFrom | ANTIGOS/PLUS/extrair_anexos_iframe_correto.py:716-717 | a slice from a bound is a suffix of the list |
| ListUtil.Reverse | ANTIGOS/PLUS/extrair_anexos_iframe_correto.py:716-717 | the reversed list has element i at position length minus one minus i |
| ListUtil.ReverseReverse | ANTIGOS/PLUS/extrair_anexos_iframe_correto.py:716-717 | reversing twice gives the list back |
| ListUtil.Filter | nivel_3/anexos.py:253 | the kept elements are elements of the list that satisfy the test, and every element that satisfies it is kept |
| ListUtil.FilterAll | nivel_3/anexos.py:253 | when every element passes, the filter keeps the whole list |
| ListUtil.FilterFilter | nivel_1/busca.py:369-397 | filtering by a weaker test and then a stronger one is filtering by the stronger one |
| ListUtil.FilterAppend | nivel_3/anexos.py:253 | filtering a concatenation concatenates the filtered parts |
| ListUtil.FilterOrder | nivel_3/anexos.py:253 | kept elements stay in their input order |
| ListUtil.FoldInvariant | ANTIGOS/PLUS/projudi_anexos_avancado.py:461-541 | a property every step preserves holds after the whole loop |
| Dedup.Keys | ANTIGOS/projudi_api.py:2187-2191 | every element's key is among the seen keys |
| Dedup.KeyAbsent | ANTIGOS/projudi_api.py:2187-2191 | a key no element has is not among the seen keys |
| Dedup.DedupBy | ANTIGOS/projudi_api.py:2185-2191 | the de-duplicated list is no longer than the input and holds only input elements |
| Dedup.DedupKeys | ANTIGOS/projudi_api.py:2185-2191 | de-duplication loses no key |
| Dedup.DedupDistinct | ANTIGOS/projudi_api.py:2185-2191 | after de-duplication no key occurs twice |
| Dedup.DedupKeepsFirst | ANTIGOS/projudi_api.py:2185-2191 | the first element with a given key is kept |
| Dedup.DedupOfDistinct | ANTIGOS/projudi_api.py:2185-2191 | a list without repeated keys is left unchanged |
| Dedup.DedupIdempotent | ANTIGOS/projudi_api.py:2185-2191 | de-duplicating twice is de-duplicating once |
| Dedup.DedupLoop | ANTIGOS/projudi_api.py:2185-2191 | the loop with the seen set returns exactly the de-duplicated list |
| Sorting.Insert | nivel_2/processo.py:1017 | inserting adds one element |
| Sorting.InsertPermutes | nivel_2/processo.py:1017 | inserting adds exactly that element to the multiset of elements |
| Sorting.InsertSorted | nivel_2/processo.py:1017 | inserting into a sorted list keeps it sorted |
| Sorting.InsertLargest | nivel_2/processo.py:1017 | an element whose key bounds all others goes at the end |
| Sorting.SortedPrefixBelow | nivel_2/processo.py:1017 | in a sorted list every element before the last has a key at most the last one's |
| Sorting.BoundByMultiset | nivel_2/processo.py:1017 | a bound on the keys of a list and of one element bounds every permutation of them |
| Sorting.AppendLargest | nivel_2/processo.py:1017 | appending an element whose key bounds the others keeps a list sorted |
| Sorting.SortBy | ANTIGOS/projudi_api.py:2021 | the sorted list is a permutation of the input, sorted by the key |
| Sorting.SortByStep | ANTIGOS/projudi_api.py:2021 | sorting inserts the last element into the sorted rest |
| Sorting.SortOfSorted | ANTIGOS/projudi_api.py:2021 | sorting a list already in order leaves it unchanged |
| Sorting.AppendLargestKeepsSort | ANTIGOS/projudi_api.py:2021 | a list the sort leaves alone stays so when an element with the largest key is appended |
| Sorting.SortTwice | ANTIGOS/projudi_api.py:2021 | sorting is idempotent |
| ApiMain.ProcessoEspecifico | api/main.py:93-101 | specification predicate with no contract of its own: a search is for one specific process when its type is process number. `NumeroCnjEhEspecifico` and `CpfOuNomeNaoEhEspecifico` state both directions. |
| ApiMain.ConverterDadosProcesso | api/main.py:273-371 | specification function with no contract of its own: the response record of one process, without the access id and the movements' process numbers, which the declared response does not have. `ConversaoPreservaListas` states that it keeps the movements, parties and attachments in order and recomputes their totals. |
| ApiMain.Resposta | api/main.py:80-270 | specification function with no contract of its own: the response, path by path. `RespostaConsistente` and `ProcessarBuscaCompleta` state its status, totals and error message. |
| ApiMain.AnexosDoProcesso | api/main.py:213-225 | specification function with no contract of its own: at most three attachments, only when requested and the process has movements. `Anexos.AnexosDasSelecionadas` states the records it yields. `ProcessarBuscaCompleta` states how they reach the response. |
| ApiMain.CredenciaisAoFinal | api/main.py:250-261 | specification function with no contract of its own: the settings after a call that restores on every path. `CredenciaisSempreRestauradas` states that they equal the originals. |
| ApiMain.CredenciaisAoFinalComoEscrito | api/main.py:103-163 | specification function with no contract of its own: the settings after a call that restores only on the final and exception paths. `CredenciaisFicamAplicadas` states that the early returns leave a changed user applied. |
| ProcessoMovimentacoes.Ordenar | nivel_2/processo.py:1012-1036 | specification function with no contract of its own: the movement order. `OrdenarIsDescendingPermutation` states that it is a permutation, descending by number or by date, and the identity otherwise. `OrdenarKeepsOrdered` states that a list already descending by number is left alone. |
| ProcessoMovimentacoes.ParseDate | nivel_2/processo.py:1025 | specification function with no contract of its own: a dd/mm/yyyy text as a sortable date key, or nothing. The date order of `OrdenarIsDescendingPermutation` is stated over it. |
| ProcessoMovimentacoes.DateKey | nivel_2/processo.py:1021-1028 | specification function with no contract of its own: the parsed date, or the minimum date when it does not parse. `OrdenarIsDescendingPermutation` states that the date order is descending in this key. |
| ProcessoPartes.DedupPartes | nivel_2/processo.py:1745-1762 | specification function with no contract of its own: the deduplicated parties. `DedupPartesUnique`, `DedupPartesKeepsMostComplete` and `DedupPartesOrder` state uniqueness, completeness and first-seen order. |
| ProcessoPartes.MaisInformacoes | nivel_2/processo.py:1777-1781 | specification predicate with no contract of its own: strictly more filled fields. `ReplaceIfMoreComplete` and `DedupPartesKeepsMostComplete` state its use in the replacement. |
| AnexosAvancado.IdsAnexosCelula | ANTIGOS/PLUS/projudi_anexos_avancado.py:461-541 | specification function with no contract of its own: the attachment ids of a table cell. `ExtrairIdsAnexosCelula` is the method proved equal to it. `FallbackOnlyWhenNothingFound` states that the movement-id fallback appears exactly when no strategy found an id. |
| AnexosAvancado.ViaJavascript | ANTIGOS/PLUS/projudi_anexos_avancado.py:469-482 | specification function with no contract of its own: ids from the script call. `BuscarViaJavascript` is the loop proved equal to its fold. `FallbackOnlyWhenNothingFound` states how the three strategies combine. |
| AnexosAvancado.ViaHref | ANTIGOS/PLUS/projudi_anexos_avancado.py:485-501 | specification function with no contract of its own: ids from the links. `BuscarViaHref` is the loop proved equal to its fold. `HrefStepKeepsNew` states that a step only adds ids not already found. |
| AnexosAvancado.ViaOnclick | ANTIGOS/PLUS/projudi_anexos_avancado.py:506-521 | specification function with no contract of its own: ids from the click handlers. `BuscarViaOnclick` is the loop proved equal to its fold. `HrefStepKeepsNew` states that a step only adds ids not already found. |
| AnexosAvancado.Agrupar | ANTIGOS/PLUS/projudi_anexos_avancado.py:189-275 | specification function with no contract of its own: the movements grouped with their attachments. `AgruparMovimentacoes` is the method proved equal to it. `AgruparDistinct` states that group numbers are distinct. |
| AnexosAvancado.PorItem | ANTIGOS/PLUS/projudi_anexos_avancado.py:208-241 | specification function with no contract of its own: one item of the first strategy. `PorItemKeepsOk` states that it keeps the groups distinct. |
| AnexosAvancado.PorLink | ANTIGOS/PLUS/projudi_anexos_avancado.py:245-275 | specification function with no contract of its own: one link of the fallback strategy. `PorLinkKeepsOk` states that it keeps the groups distinct. |
| AnexosAvancado.Selecionar | ANTIGOS/PLUS/projudi_anexos_avancado.py:280-281 | specification function with no contract of its own: the groups with the highest numbers. `SelecionarTakesHighest` states which are taken. |
| AnexosAvancado.AnexoValido | ANTIGOS/PLUS/projudi_anexos_avancado.py:1545-1555 | specification predicate with no contract of its own: an attachment worth keeping. `AnexosValidos` and `ValidarAccepts` state the filter. |
| IframeAnexos.Encontradas | ANTIGOS/PLUS/extrair_anexos_iframe_correto.py:620-711 | specification function with no contract of its own: the attachment links found by the three strategies. `ColetarMovimentacoes` and `EncontradasSaoAnexos` state their contents. |
| IframeAnexos.Extraido | ANTIGOS/PLUS/extrair_anexos_iframe_correto.py:753-779 | specification function with no contract of its own: the record of one extracted attachment. `ExtraidoCampos` states its fields. |
| IframeAnexos.Registros | ANTIGOS/PLUS/extrair_anexos_iframe_correto.py:723-781 | specification function with no contract of its own: the records of the selected links. `RegistrosPorPosicao` and `ExtrairSelecionados` state them position by position. |
| IframeAnexos.Partes | ANTIGOS/PLUS/extrair_anexos_iframe_correto.py:46-105 | specification function with no contract of its own: the parties, by strategy and then by table. `PartesLimites` and `ColetarPartes` state its bounds and source. |
| IframeAnexos.LinkDeAnexo | ANTIGOS/PLUS/extrair_anexos_iframe_correto.py:635 | specification predicate with no contract of its own: an href with the attachment marker and a text. `EncontradasSaoAnexos` states that every link found satisfies it. |
| IframeAnexos.IsPdf | ANTIGOS/PLUS/extrair_anexos_iframe_correto.py:419-421 | specification predicate with no contract of its own: the iframe mentions PDF. `IsPdfIsMentionOfPdf` states that it is exactly a mention of "pdf". |
| Busca.SemResultados | nivel_1/busca.py:353-357 | specification predicate with no contract of its own: the page says nothing was found. `ProcessosDaPagina` states that such a page yields no process. |
| Busca.Redirecionada | nivel_1/busca.py:432-438 | specification predicate with no contract of its own: the search landed on a process page. `ProcessosDaPagina` states that such a page yields at most that process. |
| Busca.ProcessosEncontrados | nivel_1/busca.py:341-364 | specification function with no contract of its own: the processes a result page lists. `ProcessosDaPagina` and `ExecutarBusca` state them. |
| Busca.LinhaDeDados | nivel_1/busca.py:369-381 | specification predicate with no contract of its own: a result-table row with data. `FiltrarLinhasDeDados` states the filter. |
| Busca.CasaCnj | nivel_1/busca.py:446 | specification predicate with no contract of its own: the CNJ number pattern at a position. `PrimeiroCnj` and `ProcessoDireto` state the first match. |
| Anexos.ExtrairTextoPdf | nivel_3/anexos.py:52-151 | specification function with no contract of its own: text and method from the three PDF readers. `MetodoDaExtracao` and `OcrIgnoraAlemDaQuinta` state which reader wins and what is read. |
| Anexos.Selecionadas | nivel_3/anexos.py:253-261 | specification function with no contract of its own: the movements with attachments, up to the limit. `SelecionadasComAnexo` states the selection. |
| Organizar.Organizado | organizar_resultado.py:28-128 | specification function with no contract of its own: the organised batch as written. `OrganizarLote` and `OrganizarResultado` state it. |
| Organizar.OrganizadoCorrigido | organizar_resultado.py:28-128 | specification function with no contract of its own: the organised batch as the corrected reading builds it. `OrganizarLoteCorrigido` states it. |
| Organizar.OrganizarBuscaComoEscrito | organizar_resultado.py:41-62 | specification function with no contract of its own: one search as written, failing with the `id_acesso` KeyError when it lists a detailed process. `ComoEscritoErro` and `BuscasPorIndice` state it. |
| Organizar.Resumido | organizar_resultado.py:147-194 | specification function with no contract of its own: the summary report. `EstatisticasComProcessos` and `PorCpfChaves` state its two parts. `CriarRelatorioResumido` is the loop proved equal to it. |
| Organizar.EstatisticasDe | organizar_resultado.py:174-177 | specification function with no contract of its own: the counts of a batch. `EstatisticasComProcessos`, `EstatisticasSemProcessos` and `ContagensSomam` state them. |
| Organizar.PorCpf | organizar_resultado.py:180-191 | specification function with no contract of its own: the results keyed by CPF. `PorCpfChaves` and `PorCpfUltimaBusca` state its keys and that the last search wins. |
| Relatorio.LinhasDaBusca | gerar_relatorio_legivel.py:292-314 | specification function with no contract of its own: the corrected rows of one search. `LinhasDaBuscaFormato` states their format and that there is always one. |
| Relatorio.LinhasDaBuscaComoEscrito | gerar_relatorio_legivel.py:292-314 | specification function with no contract of its own: the rows of one search as written. `LinhasComoEscritoFormato`, `BuscaSemDetalhesSomeDoCsv` and `EscreverBusca` state them. |
| Relatorio.LinhaDoProcesso | gerar_relatorio_legivel.py:296-310 | specification function with no contract of its own: the row of one process. `LinhasDosProcessos` and `LinhaDoProcessoConteudo` state its cells. |
| Relatorio.Secao | gerar_relatorio_legivel.py:200-245 | specification function with no contract of its own: the HTML section of one CPF. `GerarSecao` is the method proved equal to it. The header and list it concatenates have no lemma of their own. |
| Relatorio.Painel | gerar_relatorio_legivel.py:177-194 | specification function with no contract of its own: the statistics panel. `PainelConfereComResumo` states that its counts agree with the summary. |
| ApiModels.ParaBuscaRequest | api/models.py:21-52 | specification function with no contract of its own: the request built from the parameter list. `ToBuscaRequest`, `BandeiraSegueUltimo`, `PadroesQuandoAusentes`, `LimiteSegueUltimo` and `LimiteVazioRejeitado` state it. |
| ApiModels.ParaBuscaRequestCorrigido | api/models.py:32-57 | specification function with no contract of its own: the corrected request, where an empty limit means no limit. `LimiteVazioSemLimite` states that. |
| ApiModels.Bandeira | api/models.py:29-30 | specification function with no contract of its own: one flag field. `Validar` states the fields it accepts. |
| ApiModels.Limite | api/models.py:31-37 | specification function with no contract of its own: the limit field. `Validar` states the values it accepts. |
| ApiModels.ComPadroes | api/models.py:40-50 | specification function with no contract of its own: the defaults filled in. `ComPadroesPreenche` and `PreencherPadroes` state them. |
| ConcurrencyGate.Execute | core/concurrency_manager.py:25-75 | specification function with no contract of its own: the counters after one whole call. `ExecuteBookkeeping` and `ExecuteWithLimits` state them. |
| ConcurrencyGate.SuccessRate | core/concurrency_manager.py:85-88 | specification function with no contract of its own: the success rate. `SuccessRateRange` and `GetStats` state its range. |
| TaskQueue.QueuePosition | ANTIGOS/queue_manager.py:167-184 | specification function with no contract of its own: the queue position of a request. `FreshRequestReportsFront` and `GetQueuePosition` state it. |
| ProjudiApi.SearchStep | ANTIGOS/projudi_api.py:1396-1597 | specification function with no contract of its own: one attempt of the search. `SearchStepKeepsValid` and `SearchStepReleases` state that it keeps the pool invariant and what it releases. |
| ProjudiApi.HealthLease | ANTIGOS/projudi_api.py:305-324 | specification function with no contract of its own: the health-checked lease. `HealthLeaseKeepsValid` and `HealthLeaseBusy` state it. |
| ProjudiApi.Doomed | ANTIGOS/projudi_api.py:258-297 | specification predicate with no contract of its own: a session maintenance removes. `DoomedNumbers` and `SurvivorsExact` state that maintenance keeps exactly the others. |

## Left out

- Sorting.SortBy: stability, that equal keys keep their input order, is not stated; the contract gives an ordered permutation.
- Browser work is not modelled: navigation, XPath and CSS selectors, injected JavaScript, and iframe refreshing. This covers `fazer_login`, `buscar_por_*`, `acessar_processo`, `_solicitar_acesso_*` and `_clicar_*`. Each becomes the outcome it returns, given as a parameter.
- The Redis client and networking are not modelled. Redis becomes a `seq` and two `map`s. `core/cache_manager.py` is not part of this model: it is a thin wrapper that returns None or False when disconnected.
- Real concurrency is not modelled:
  - `asyncio.Semaphore` blocking and `asyncio.wait_for` timeouts: the gate is modelled as the phases of a call, and a timeout is one of its outcomes;
  - the worker threads of `start_queue_processor`, which become single worker iterations;
  - the thread pool of the legacy `buscar_multiplo`;
  - the locks.
- The parallel branch of the FastAPI batch endpoint (api/main.py:560-581) awaits its tasks one after another. It is modelled by the sequential branch. The two differ only in the "batch_" prefix of the request ids, which are not modelled.
- Foreign libraries are not modelled. fitz, PyPDF2, pytesseract and PIL are given by the page texts they return. BeautifulSoup traversal and the regular-expression engine become explicit scans.
- The Unicode name normaliser (`unicodedata` decomposition in `_normalizar_nome_para_comparacao`) is a parameter `norm`.
- Character classes (`\s`, `\d`, `str.isdigit`, `str.strip`) are taken as ASCII. Lower-casing covers ASCII and Latin-1 capitals only.
- Floating point is not modelled exactly. `ConcurrencyGate.Stats.successRate` is an exact `real` quotient, with no float rounding. The rounded execution times of `organizar_resultado.py` are not modelled.
- Wall clocks (`time.time`, `datetime.now`) become a parameter in seconds. Timestamps in answers, execution times and all logging are left out.
- These are not modelled:
  - file writes and downloads;
  - temporary-directory cleanup;
  - reading and writing the JSON files of the offline scripts, whose input is the batch answer itself rather than the file wrapper around it;
  - the fixed HTML and CSS text of the report page.
- `config.py`, the service's startup in `main.py` and `scripts/run_tests_seq.py` are plumbing. They are not part of this model.
- The sleeps of `_robust_operation` and the background cleanup delays are left out. Only the number of tries and their order are modelled.
- Browser fingerprint and launch options are left out.
- `processar_busca` in `ANTIGOS/projudi_api.py` reads the results page after a successful search (1439-1569). That reading is reduced to which exit the attempt took; it is not modelled field by field.
- The uuid of a new `SessionManager` session is supplied by the caller. The contracts require it to be fresh, which the source assumes of `uuid4`.
- TaskQueue.CompletedRecord: a completed record drops `retries`, as the code does. The final failed record keeps it. The design documentation says a completed request keeps its attempt count; the model follows the code.

## Findings

| source | as written | input that shows it | evidently intended | confidence | as-written member | corrected member |
|---|---|---|---|---|---|---|
| ANTIGOS/queue_manager.py:170-184 | The position is counted from the list's left end, where `add_to_queue` pushes. | A request added behind n queued requests reports position 0, while n requests are served before it. | The number of requests served before this one. | not executed | TaskQueue.FreshRequestReportsFront | TaskQueue.PositionAhead |
| core/concurrency_manager.py:35-43 | Every call that enters removes one queued count, whether or not it was counted. | One slot. A enters. B arrives and is counted. A leaves. C arrives uncounted and enters first. The gate reports 0 queued while B waits. | Only a call counted on arrival removes a count. | not executed | ConcurrencyGate.QueuedCountLosesWaitingCall | ConcurrencyGate.IntendedEntryKeepsQueuedExact |
| ANTIGOS/projudi_api.py:1409-1416 | After a refresh, the `continue` retries without releasing the leased session. | A pool of one session. The first attempt's login fails and the refresh succeeds. The second attempt finds no free session. | Release the session before retrying. | not executed | ProjudiApi.RetryWithoutReleaseExhaustsPool | ProjudiApi.CorrectedAttemptReleases |
| ANTIGOS/projudi_api.py:65-69 | `_handle_session_error` returns a new session that never enters the pool. | Any session error: the pool's session list does not hold the returned session. | Lease the replacement from the pool. | not executed | ProjudiApi.ReplacementOutsidePool | ProjudiApi.PooledReplacementIsLeased |
| api/models.py:32-38 | The `and param.value` guard skips the integer branch for an empty value, so `limite_movimentacoes` is stored as the text "". `BuscaRequest` expects an integer or None, so validation rejects it and the request gets a 400. | An N8N parameter `limite_movimentacoes` with value "". | An empty limit means no limit. | not executed | ApiModels.LimiteVazioRejeitado | ApiModels.LimiteVazioSemLimite |
| organizar_resultado.py:62 | Each detailed process is read with `processo["id_acesso"]`, but the served process record (api/models.py:114-137) has no access id, so the first detailed process raises a KeyError. | A batch answer whose search lists one detailed process. | Every search is organised, with the access id absent. | not executed | Organizar.OrganizarLote | Organizar.OrganizarLoteCorrigido |
| nivel_3/anexos.py:446 | Success is a non-empty text, but when no library can read the PDF the text is the non-empty failure message of line 151. | Every extraction library raises or returns empty pages. The attachment has `sucesso` true and method "erro". | Count it as a failure. | not executed | Anexos.FalhaPdfContaComoSucesso | Anexos.ProcessarAnexo |
| api/main.py:120-163 | The early returns leave the request's credentials in the shared settings. | Custom credentials and a search that finds nothing. The settings still hold them after the call. | Restore the original credentials on every exit. | not executed | ApiMain.CredenciaisFicamAplicadas | ApiMain.ProcessarBuscaCompletaRestaurando |
| gerar_relatorio_legivel.py:295-314 | A search with processes but no process details writes no CSV row. | A search counted as having 2 processes with an empty details list. | One row per search at least, as for a search with no processes. | not executed | Relatorio.BuscaSemDetalhesSomeDoCsv | Relatorio.LinhasDaBuscaFormato |
