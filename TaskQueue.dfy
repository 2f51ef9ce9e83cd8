/**
 * The Redis-backed request queue (ANTIGOS/queue_manager.py).
 *
 * Redis holds three structures: the list `projudi_queue` (requests are
 * pushed on its left end and popped from its right end), the hash
 * `projudi_processing` (requests handed to a worker) and the hash
 * `projudi_results` (the last record written for every request id).
 * Here the list is a `seq<Record>` whose index 0 is the left end, and the
 * two hashes are maps. Every record is a JSON object whose keys may be
 * absent, so each optional key is an `Option`. Wall-clock time is a
 * parameter `now` in seconds.
 */
module TaskQueue {
  import opened Wrappers

  type Id = string
  /** The opaque JSON payload of a request, or the result of a search. */
  type Json = string

  /** `max_retries` written into every new record, and the default of `item.get("max_retries", 3)`. */
  const DefaultMaxRetries: nat := 3
  /** A request in processing for more than this many seconds is an orphan. */
  const OrphanAfterSeconds: int := 600
  const SecondsPerHour: int := 3600

  datatype Status = Pending | Processing | Completed | Failed

  /** A stored ISO timestamp: text that parses to a number of seconds, or text that does not parse. */
  datatype Stamp = At(seconds: int) | Garbled

  /** One JSON record as stored in Redis; a `None` field is a key the record does not have. */
  datatype Record = Record(
    id: Id,
    data: Option<Json>,
    status: Status,
    position: Option<nat>,
    createdAt: Option<Stamp>,
    retries: Option<nat>,
    maxRetries: Option<nat>,
    error: Option<string>,
    startedAt: Option<Stamp>,
    retryAt: Option<int>,
    result: Option<Json>,
    completedAt: Option<int>,
    failedAt: Option<int>)

  /** The three Redis structures at one instant. */
  datatype Store = Store(queue: seq<Record>, processing: map<Id, Record>, results: map<Id, Record>)

  /** `item.get("retries", 0)` */
  function RetriesOf(r: Record): nat { r.retries.GetOr(0) }

  /** `item.get("max_retries", 3)` */
  function MaxRetriesOf(r: Record): nat { r.maxRetries.GetOr(DefaultMaxRetries) }

  /** The record built by `add_to_queue` before it is pushed (its position is still 0). */
  function NewRecord(id: Id, data: Json, now: int): (r: Record)
    ensures r.id == id && r.data == Some(data) && r.status == Pending
    ensures r.retries == Some(0) && r.maxRetries == Some(DefaultMaxRetries)
    ensures r.createdAt == Some(At(now)) && r.startedAt == None
  {
    Record(id, Some(data), Pending, Some(0), Some(At(now)), Some(0), Some(DefaultMaxRetries),
           None, None, None, None, None, None)
  }

  /** The record `mark_completed` writes: it replaces whatever was stored. */
  function CompletedRecord(id: Id, result: Json, now: int): (r: Record)
    ensures r.status == Completed && r.result == Some(result)
    ensures r.createdAt == None && forall t, h :: !IsOldResult(r, t, h)
  {
    Record(id, None, Completed, None, None, None, None, None, None, None, Some(result), Some(now), None)
  }

  /** The record `mark_failed` writes once no retry is left. */
  function FailedRecord(id: Id, error: string, retries: nat, now: int): (r: Record)
    ensures r.status == Failed && r.error == Some(error) && r.retries == Some(retries)
    ensures r.createdAt == None && forall t, h :: !IsOldResult(r, t, h)
  {
    Record(id, None, Failed, None, None, Some(retries), None, Some(error), None, None, None, None, Some(now))
  }

  // ---------------------------------------------------------------------
  // The operations as functions of the store
  // ---------------------------------------------------------------------

  /** `add_to_queue`: left-push a pending record and store it in `results` with its 1-based queue length. */
  function Add(s: Store, id: Id, data: Json, now: int): (r: Store)
    ensures |r.queue| == |s.queue| + 1 && r.queue[1..] == s.queue
    ensures r.queue[0] == NewRecord(id, data, now)
    ensures r.processing == s.processing
    ensures id in r.results && r.results[id] == NewRecord(id, data, now).(position := Some(|r.queue|))
    ensures r.results[id].status == Pending && r.results[id].retries == Some(0)
    ensures r.results[id].maxRetries == Some(DefaultMaxRetries)
    ensures forall k :: k != id ==> (k in r.results <==> k in s.results)
    ensures forall k :: k != id && k in s.results ==> r.results[k] == s.results[k]
  {
    var item := NewRecord(id, data, now);
    var queue' := [item] + s.queue;
    assert queue'[1..] == s.queue;
    Store(queue', s.processing, s.results[id := item.(position := Some(|queue'|))])
  }

  /**
   * `get_from_queue`: right-pop the oldest record, stamp it as processing and
   * put it in `processing`. `results` is not touched.
   */
  function Pop(s: Store, now: int): (r: (Store, Option<Record>))
    ensures s.queue == [] ==> r.0 == s && r.1 == None
    ensures s.queue != [] ==>
      && r.1 == Some(s.queue[|s.queue| - 1].(status := Processing, startedAt := Some(At(now))))
      && r.0.queue == s.queue[..|s.queue| - 1]
      && r.0.processing == s.processing[r.1.value.id := r.1.value]
    ensures r.0.results == s.results
  {
    if |s.queue| == 0 then (s, None)
    else
      var item := s.queue[|s.queue| - 1].(status := Processing, startedAt := Some(At(now)));
      (Store(s.queue[..|s.queue| - 1], s.processing[item.id := item], s.results), Some(item))
  }

  /** `mark_completed`: drop the id from `processing` and overwrite its result record. */
  function Complete(s: Store, id: Id, result: Json, now: int): (r: Store)
    ensures r.queue == s.queue
    ensures r.processing == s.processing - {id}
    ensures id in r.results && r.results[id].status == Completed && r.results[id].result == Some(result)
    ensures forall k :: k != id ==> (k in r.results <==> k in s.results)
    ensures forall k :: k != id && k in s.results ==> r.results[k] == s.results[k]
  {
    Store(s.queue, s.processing - {id}, s.results[id := CompletedRecord(id, result, now)])
  }

  /**
   * `mark_failed`: drop the id from `processing`; if a result record exists,
   * count one more retry and either push the record back (pending) or
   * replace it by a final failed record.
   */
  function Fail(s: Store, id: Id, error: string, retry: bool, now: int): (r: Store)
    ensures r.processing == s.processing - {id}
    ensures id !in s.results ==> r.queue == s.queue && r.results == s.results
    ensures id in s.results ==>
      var n := RetriesOf(s.results[id]) + 1;
      && id in r.results
      && (if retry && n < MaxRetriesOf(s.results[id]) then
            && r.results[id].status == Pending && r.results[id].retries == Some(n)
            && r.queue == [r.results[id]] + s.queue
          else
            && r.results[id] == FailedRecord(id, error, n, now)
            && r.queue == s.queue)
    ensures forall k :: k != id ==> (k in r.results <==> k in s.results)
    ensures forall k :: k != id && k in s.results ==> r.results[k] == s.results[k]
  {
    var processing' := s.processing - {id};
    if id !in s.results then Store(s.queue, processing', s.results)
    else
      var item := s.results[id];
      var n := RetriesOf(item) + 1;
      if retry && n < MaxRetriesOf(item) then
        var item' := item.(retries := Some(n), status := Pending, error := Some(error), retryAt := Some(now));
        Store([item'] + s.queue, processing', s.results[id := item'])
      else
        Store(s.queue, processing', s.results[id := FailedRecord(id, error, n, now)])
  }

  /** Index of the first record with this id, counted from the left (most recently pushed) end; -1 if none. */
  function IndexOfId(q: seq<Record>, id: Id): (r: int)
    ensures -1 <= r < |q|
    ensures r >= 0 ==> q[r].id == id && forall j :: 0 <= j < r ==> q[j].id != id
    ensures r == -1 <==> forall j :: 0 <= j < |q| ==> q[j].id != id
  {
    if |q| == 0 then -1
    else if q[0].id == id then 0
    else
      var k := IndexOfId(q[1..], id);
      if k < 0 then -1 else k + 1
  }

  /** `get_queue_position`: 0 while processing, the index in the list while queued, -1 otherwise. */
  function QueuePosition(s: Store, id: Id): int {
    if id in s.processing then 0 else IndexOfId(s.queue, id)
  }

  /** `clear_orphaned_requests` decides per entry: unparseable start, or more than 600 s ago. */
  predicate IsOrphan(r: Record, now: int) {
    match r.startedAt
    case None => false
    case Some(Garbled) => true
    case Some(At(t)) => now - t > OrphanAfterSeconds
  }

  function OrphanIds(p: map<Id, Record>, now: int): set<Id> {
    set k | k in p && IsOrphan(p[k], now)
  }

  /** The processing hash once the orphans are deleted. */
  function WithoutOrphans(p: map<Id, Record>, now: int): (r: map<Id, Record>)
    ensures r.Keys == p.Keys - OrphanIds(p, now)
    ensures forall k :: k in r ==> r[k] == p[k] && !IsOrphan(p[k], now)
  {
    map k | k in p && !IsOrphan(p[k], now) :: p[k]
  }

  /** `clear_old_results` deletes a record only if its `created_at` parses and is older than the cutoff. */
  predicate IsOldResult(r: Record, now: int, maxAgeHours: int) {
    match r.createdAt
    case Some(At(t)) => t < now - maxAgeHours * SecondsPerHour
    case _ => false
  }

  function OldResultIds(m: map<Id, Record>, now: int, maxAgeHours: int): set<Id> {
    set k | k in m && IsOldResult(m[k], now, maxAgeHours)
  }

  function WithoutOldResults(m: map<Id, Record>, now: int, maxAgeHours: int): (r: map<Id, Record>)
    ensures r.Keys == m.Keys - OldResultIds(m, now, maxAgeHours)
    ensures forall k :: k in r ==> r[k] == m[k]
  {
    map k | k in m && !IsOldResult(m[k], now, maxAgeHours) :: m[k]
  }

  /** Every hash entry is stored under the id its record carries. */
  predicate WellKeyed(s: Store) {
    && (forall k :: k in s.processing ==> s.processing[k].id == k)
    && (forall k :: k in s.results ==> s.results[k].id == k)
  }

  /** Each queue operation keeps every record filed under its own id. */
  lemma OperationsKeepWellKeyed(s: Store, id: Id, data: Json, result: Json, error: string, retry: bool, now: int)
    requires WellKeyed(s)
    ensures WellKeyed(Add(s, id, data, now))
    ensures WellKeyed(Pop(s, now).0)
    ensures WellKeyed(Complete(s, id, result, now))
    ensures WellKeyed(Fail(s, id, error, retry, now))
  {
  }

  // ---------------------------------------------------------------------
  // Ordering: left push and right pop make a FIFO
  // ---------------------------------------------------------------------

  /** The ids in the order successive `get_from_queue` calls hand them out: right end first. */
  function DequeueOrder(q: seq<Record>): (r: seq<Id>)
    ensures |r| == |q|
  {
    if |q| == 0 then [] else [q[|q| - 1].id] + DequeueOrder(q[..|q| - 1])
  }

  /** A left push puts the new record last in the dequeue order: first in, first out. */
  lemma {:induction false} DequeueOrderPushLeft(x: Record, q: seq<Record>)
    ensures DequeueOrder([x] + q) == DequeueOrder(q) + [x.id]
  {
    if |q| == 0 {
      assert [x] + q == [x];
      assert DequeueOrder([x]) == [x.id] + DequeueOrder([]);
    } else {
      var xq := [x] + q;
      assert xq[..|xq| - 1] == [x] + q[..|q| - 1];
      assert xq[|xq| - 1] == q[|q| - 1];
      DequeueOrderPushLeft(x, q[..|q| - 1]);
    }
  }

  /** The record at list index i is dequeued after exactly |q| - 1 - i others. */
  lemma {:induction false} DequeueOrderAt(q: seq<Record>, i: nat)
    requires i < |q|
    ensures DequeueOrder(q)[|q| - 1 - i] == q[i].id
  {
    if i < |q| - 1 {
      DequeueOrderAt(q[..|q| - 1], i);
    }
  }

  /** `add_to_queue` appends the new id to the dequeue order and keeps the order of everything queued before. */
  lemma AddIsFifo(s: Store, id: Id, data: Json, now: int)
    ensures DequeueOrder(Add(s, id, data, now).queue) == DequeueOrder(s.queue) + [id]
  {
    DequeueOrderPushLeft(NewRecord(id, data, now), s.queue);
  }

  /** `get_from_queue` hands out the head of the dequeue order and leaves the rest in order. */
  lemma PopIsFifo(s: Store, now: int)
    requires s.queue != []
    ensures Pop(s, now).1.value.id == DequeueOrder(s.queue)[0]
    ensures DequeueOrder(Pop(s, now).0.queue) == DequeueOrder(s.queue)[1..]
  {
  }

  /** First index of x in s, or -1. */
  function FirstIndex(s: seq<Id>, x: Id): (r: int)
    ensures -1 <= r < |s|
    ensures r >= 0 ==> s[r] == x && forall j :: 0 <= j < r ==> s[j] != x
    ensures r == -1 <==> x !in s
  {
    if |s| == 0 then -1
    else if s[0] == x then 0
    else
      var k := FirstIndex(s[1..], x);
      if k < 0 then -1 else k + 1
  }

  /**
   * The position the queue's comment promises: how many queued requests are
   * served before this one (0 while it is in processing, -1 when unknown).
   */
  function PositionAhead(s: Store, id: Id): (r: int)
    ensures id !in s.processing && r >= 0 ==>
      r < |s.queue| && DequeueOrder(s.queue)[r] == id &&
      forall j :: 0 <= j < r ==> DequeueOrder(s.queue)[j] != id
  {
    if id in s.processing then 0 else FirstIndex(DequeueOrder(s.queue), id)
  }

  /**
   * As written, `get_queue_position` counts from the end that `add_to_queue`
   * pushes to, so a request submitted behind n others reports position 0,
   * while n requests are served before it.
   */
  lemma {:induction false} FreshRequestReportsFront(s: Store, id: Id, data: Json, now: int)
    requires id !in s.processing
    requires forall j :: 0 <= j < |s.queue| ==> s.queue[j].id != id
    ensures QueuePosition(Add(s, id, data, now), id) == 0
    ensures PositionAhead(Add(s, id, data, now), id) == |s.queue|
  {
    var r := Add(s, id, data, now);
    AddIsFifo(s, id, data, now);
    var order := DequeueOrder(r.queue);
    forall j | 0 <= j < |s.queue|
      ensures order[j] != id
    {
      DequeueOrderAt(s.queue, |s.queue| - 1 - j);
    }
    assert order[|s.queue|] == id;
    var k := FirstIndex(order, id);
    assert k == |s.queue|;
  }

  // ---------------------------------------------------------------------
  // The orphan sweep
  // ---------------------------------------------------------------------

  /**
   * The sweep only deletes from `processing`. A request that was dequeued
   * (its stored record still says pending, as dequeue never writes
   * `results`) and then swept is in neither the list nor `processing`: no
   * later `get_from_queue` can return it, and polling keeps reporting pending.
   */
  lemma SweptRequestIsStranded(s: Store, now: int, later: int)
    requires |s.queue| == 1 && s.processing == map[]
    requires s.queue[0].id in s.results && s.results[s.queue[0].id].status == Pending
    requires later - now > OrphanAfterSeconds
    ensures
      var id := s.queue[0].id;
      var popped := Pop(s, now).0;
      var swept := Store(popped.queue, WithoutOrphans(popped.processing, later), popped.results);
      && id in popped.processing
      && swept.queue == [] && id !in swept.processing
      && swept.results[id].status == Pending
      && Pop(swept, later).1 == None
  {
    var id := s.queue[0].id;
    var popped := Pop(s, now).0;
    assert popped.processing[id].startedAt == Some(At(now));
    assert id in OrphanIds(popped.processing, later);
  }

  // ---------------------------------------------------------------------
  // The queue manager object
  // ---------------------------------------------------------------------

  class QueueManager {
    var queue: seq<Record>
    var processing: map<Id, Record>
    var results: map<Id, Record>

    function Snapshot(): Store
      reads this
    {
      Store(queue, processing, results)
    }

    constructor ()
      ensures Snapshot() == Store([], map[], map[])
    {
      queue, processing, results := [], map[], map[];
    }

    /** The id is the fresh uuid the source draws; it is returned unchanged. */
    method AddToQueue(id: Id, data: Json, now: int) returns (requestId: Id)
      modifies this
      ensures requestId == id
      ensures Snapshot() == Add(old(Snapshot()), id, data, now)
    {
      var item := NewRecord(id, data, now);
      queue := [item] + queue;
      var queueLength := |queue|;
      results := results[id := item.(position := Some(queueLength))];
      requestId := id;
    }

    method GetFromQueue(now: int) returns (item: Option<Record>)
      modifies this
      ensures (Snapshot(), item) == Pop(old(Snapshot()), now)
    {
      if |queue| == 0 {
        return None;
      }
      var popped := queue[|queue| - 1];
      queue := queue[..|queue| - 1];
      var started := popped.(status := Processing, startedAt := Some(At(now)));
      processing := processing[started.id := started];
      item := Some(started);
    }

    method MarkCompleted(id: Id, result: Json, now: int)
      modifies this
      ensures Snapshot() == Complete(old(Snapshot()), id, result, now)
    {
      processing := processing - {id};
      results := results[id := CompletedRecord(id, result, now)];
    }

    method MarkFailed(id: Id, error: string, retry: bool, now: int)
      modifies this
      ensures Snapshot() == Fail(old(Snapshot()), id, error, retry, now)
    {
      processing := processing - {id};
      if id in results {
        var item := results[id];
        var n := RetriesOf(item) + 1;
        item := item.(retries := Some(n));
        if retry && n < MaxRetriesOf(item) {
          item := item.(status := Pending, error := Some(error), retryAt := Some(now));
          queue := [item] + queue;
          results := results[id := item];
        } else {
          results := results[id := FailedRecord(id, error, n, now)];
        }
      }
    }

    /** `get_status`: the stored record, if any. */
    method GetStatus(id: Id) returns (status: Option<Record>)
      ensures status.Some? <==> id in results
      ensures status.Some? ==> status.value == results[id]
    {
      if id in results {
        status := Some(results[id]);
      } else {
        status := None;
      }
    }

    /** `get_queue_position`: scans the list from its left end. */
    method GetQueuePosition(id: Id) returns (position: int)
      ensures position == QueuePosition(Snapshot(), id)
      ensures id in processing ==> position == 0
      ensures id !in processing && position >= 0 ==> queue[position].id == id
      ensures position == -1 <==> id !in processing && forall j :: 0 <= j < |queue| ==> queue[j].id != id
    {
      if id in processing {
        return 0;
      }
      position := 0;
      while position < |queue|
        invariant 0 <= position <= |queue|
        invariant forall j :: 0 <= j < position ==> queue[j].id != id
      {
        if queue[position].id == id {
          return;
        }
        position := position + 1;
      }
      position := -1;
    }

    /** `get_queue_stats`: the list length and the sizes of both hashes. */
    method GetQueueStats() returns (pending: nat, inProcessing: nat, totalResults: nat)
      ensures pending == |queue| && inProcessing == |processing| && totalResults == |results|
    {
      pending, inProcessing, totalResults := |queue|, |processing|, |results|;
    }

    /** `clear_old_results`: one pass over the keys of `results`. */
    method ClearOldResults(now: int, maxAgeHours: int) returns (deleted: nat)
      modifies this
      ensures results == WithoutOldResults(old(results), now, maxAgeHours)
      ensures deleted == |OldResultIds(old(results), now, maxAgeHours)|
      ensures queue == old(queue) && processing == old(processing)
    {
      var keys := results.Keys;
      ghost var removed: set<Id> := {};
      deleted := 0;
      while keys != {}
        invariant keys <= old(results).Keys
        invariant removed == set k | k in old(results) && k !in keys && IsOldResult(old(results)[k], now, maxAgeHours)
        invariant deleted == |removed|
        invariant results == map k | k in old(results) && (k in keys || !IsOldResult(old(results)[k], now, maxAgeHours)) :: old(results)[k]
        invariant queue == old(queue) && processing == old(processing)
        decreases keys
      {
        var key :| key in keys;
        keys := keys - {key};
        var item := results[key];
        if IsOldResult(item, now, maxAgeHours) {
          results := results - {key};
          removed := removed + {key};
          deleted := deleted + 1;
        }
      }
      assert removed == OldResultIds(old(results), now, maxAgeHours);
    }

    /** `clear_orphaned_requests`: one pass over the keys of `processing`. */
    method ClearOrphanedRequests(now: int) returns (orphaned: nat)
      modifies this
      ensures processing == WithoutOrphans(old(processing), now)
      ensures orphaned == |OrphanIds(old(processing), now)|
      ensures queue == old(queue) && results == old(results)
    {
      var keys := processing.Keys;
      ghost var removed: set<Id> := {};
      orphaned := 0;
      while keys != {}
        invariant keys <= old(processing).Keys
        invariant removed == set k | k in old(processing) && k !in keys && IsOrphan(old(processing)[k], now)
        invariant orphaned == |removed|
        invariant processing == map k | k in old(processing) && (k in keys || !IsOrphan(old(processing)[k], now)) :: old(processing)[k]
        invariant queue == old(queue) && results == old(results)
        decreases keys
      {
        var key :| key in keys;
        keys := keys - {key};
        var item := processing[key];
        if IsOrphan(item, now) {
          processing := processing - {key};
          removed := removed + {key};
          orphaned := orphaned + 1;
        }
      }
      assert removed == OrphanIds(old(processing), now);
    }
  }
}
