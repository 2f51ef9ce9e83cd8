/**
 * The Flask front end of the queued API (ANTIGOS/main.py): one iteration
 * of a queue worker, the `/status/<id>` reply, and the request validation
 * of `/buscar` and `/buscar_multiplo`.
 */
module QueueWorker {
  import opened Wrappers
  import opened TaskQueue
  import opened JsonValue
  import StringUtil

  /**
   * What `api.processar_busca` did with a dequeued request: it returned a
   * dict (which may itself be an error dict) or it raised.
   */
  datatype SearchOutcome = Returned(result: Json) | Raised(message: string)

  // ---------------------------------------------------------------------
  // One worker iteration
  // ---------------------------------------------------------------------

  /**
   * One pass of the `process_queue_worker` loop: dequeue; on an empty queue
   * nothing happens; otherwise exactly one of `mark_completed` (a normal
   * return, error dicts included) or `mark_failed` (an exception).
   */
  function Step(s: Store, now: int, outcome: SearchOutcome): (r: (Store, Option<Id>))
    ensures s.queue == [] <==> r.1 == None
    ensures s.queue == [] ==> r.0 == s
    ensures s.queue != [] ==>
      var id := s.queue[|s.queue| - 1].id;
      && r.1 == Some(id)
      && id !in r.0.processing
      && r.0.processing == s.processing - {id}
      && (outcome.Returned? ==>
            && r.0.queue == s.queue[..|s.queue| - 1]
            && id in r.0.results
            && r.0.results[id].status == Completed
            && r.0.results[id].result == Some(outcome.result))
      && (outcome.Raised? ==> r.0 == Fail(Pop(s, now).0, id, outcome.message, true, now))
  {
    var (popped, item) := Pop(s, now);
    match item
    case None => (popped, None)
    case Some(rec) =>
      match outcome
      case Returned(result) => (Complete(popped, rec.id, result, now), Some(rec.id))
      case Raised(message) => (Fail(popped, rec.id, message, true, now), Some(rec.id))
  }

  /** One iteration against the live queue manager. */
  method WorkerIteration(qm: QueueManager, now: int, outcome: SearchOutcome) returns (processed: Option<Id>)
    modifies qm
    ensures (qm.Snapshot(), processed) == Step(old(qm.Snapshot()), now, outcome)
  {
    var item := qm.GetFromQueue(now);
    if item.None? {
      return None;
    }
    var requestId := item.value.id;
    match outcome {
      case Returned(result) =>
        qm.MarkCompleted(requestId, result, now);
      case Raised(message) =>
        qm.MarkFailed(requestId, message, true, now);
    }
    processed := Some(requestId);
  }

  /**
   * A request whose search always raises is pushed back twice and is
   * finalised as failed on its third failure, with retries = 3.
   */
  lemma {:induction false} AlwaysFailingRequestFailsOnThirdAttempt(
    s: Store, id: Id, data: Json, t0: int, t1: int, t2: int, t3: int, e1: string, e2: string, e3: string)
    requires s.queue == []
    ensures
      var a := Add(s, id, data, t0);
      var b := Step(a, t1, Raised(e1)).0;
      var c := Step(b, t2, Raised(e2)).0;
      var d := Step(c, t3, Raised(e3)).0;
      && b.results[id].status == Pending && b.results[id].retries == Some(1) && |b.queue| == 1
      && c.results[id].status == Pending && c.results[id].retries == Some(2) && |c.queue| == 1
      && d.results[id] == FailedRecord(id, e3, 3, t3)
      && d.queue == [] && id !in d.processing
  {
    var a := Add(s, id, data, t0);
    assert a.queue == [NewRecord(id, data, t0)];
    var b := Step(a, t1, Raised(e1)).0;
    assert b.queue[0].id == id;
    var c := Step(b, t2, Raised(e2)).0;
    assert c.queue[0].id == id;
    var d := Step(c, t3, Raised(e3)).0;
  }

  /**
   * Two failures and then a normal return leave the request completed; the
   * completed record no longer carries the retry count.
   */
  lemma {:induction false} FailTwiceThenSucceed(
    s: Store, id: Id, data: Json, result: Json, t0: int, t1: int, t2: int, t3: int, e1: string, e2: string)
    requires s.queue == []
    ensures
      var a := Add(s, id, data, t0);
      var b := Step(a, t1, Raised(e1)).0;
      var c := Step(b, t2, Raised(e2)).0;
      var d := Step(c, t3, Returned(result)).0;
      && d.results[id].status == Completed && d.results[id].result == Some(result)
      && d.results[id].retries == None
      && d.queue == [] && id !in d.processing
  {
    var a := Add(s, id, data, t0);
    assert a.queue == [NewRecord(id, data, t0)];
    var b := Step(a, t1, Raised(e1)).0;
    assert b.queue[0].id == id;
    var c := Step(b, t2, Raised(e2)).0;
    assert c.queue[0].id == id;
  }

  // ---------------------------------------------------------------------
  // GET /status/<request_id>
  // ---------------------------------------------------------------------

  datatype StatusReply =
    | QueueUnavailable                       // 503
    | NotFound                               // 404
    | Found(requestId: Id, status: Status, timestamp: int,
            result: Option<Json>, processingTime: Option<int>, error: Option<string>)

  function HttpCode(r: StatusReply): nat {
    match r
    case QueueUnavailable => 503
    case NotFound => 404
    case Found(_, _, _, _, _, _) => 200
  }

  /**
   * `get_request_status`: completed replies add the result and a processing
   * time (no record stores one, so it is always the default 0); failed
   * replies add the error; other statuses give only id, status and time.
   */
  function StatusResponse(queueAvailable: bool, stored: Option<Record>, requestId: Id, now: int): (r: StatusReply)
    ensures !queueAvailable <==> HttpCode(r) == 503
    ensures queueAvailable && stored.None? <==> HttpCode(r) == 404
    ensures r.Found? ==>
      && stored.Some? && r.requestId == requestId && r.status == stored.value.status
      && (r.result.Some? || r.processingTime.Some? <==> r.status == Completed)
      && (r.status == Completed ==> r.result == Some(stored.value.result.GetOr("{}")) && r.processingTime == Some(0))
      && (r.error.Some? <==> r.status == Failed)
      && (r.status == Failed ==> r.error == Some(stored.value.error.GetOr("Erro desconhecido")))
  {
    if !queueAvailable then QueueUnavailable
    else if stored.None? then NotFound
    else
      var rec := stored.value;
      match rec.status
      case Completed => Found(requestId, Completed, now, Some(rec.result.GetOr("{}")), Some(0), None)
      case Failed => Found(requestId, Failed, now, None, None, Some(rec.error.GetOr("Erro desconhecido")))
      case _ => Found(requestId, rec.status, now, None, None, None)
  }

  /**
   * A stored record changes only when its own id is dequeued: while the id
   * is not queued, every worker step keeps it, so repeated polls of a
   * finished request see the same record.
   */
  lemma StoredRecordIsStable(s: Store, now: int, outcome: SearchOutcome, id: Id)
    requires WellKeyed(s) && id in s.results
    requires forall j :: 0 <= j < |s.queue| ==> s.queue[j].id != id
    ensures id in Step(s, now, outcome).0.results
    ensures Step(s, now, outcome).0.results[id] == s.results[id]
    ensures forall j :: 0 <= j < |Step(s, now, outcome).0.queue| ==> Step(s, now, outcome).0.queue[j].id != id
  {
    if s.queue != [] {
      var popped := s.queue[|s.queue| - 1];
      assert popped.id != id;
    }
  }

  // ---------------------------------------------------------------------
  // POST /buscar and POST /buscar_multiplo: validation
  // ---------------------------------------------------------------------

  /** The fields a search request carries, each with its handler default already applied. */
  datatype SearchRequest = SearchRequest(tipoBusca: Value, valor: Value, movimentacoes: Value, extrairAnexos: Value)

  function RequestOf(d: map<string, Value>): (r: SearchRequest)
    ensures r.valor == Get(d, "valor", JStr(""))
  {
    SearchRequest(
      Get(d, "tipo_busca", JStr("processo")),
      Get(d, "valor", JStr("")),
      Get(d, "movimentacoes", JStr("ultimas3")),
      Get(d, "extrair_anexos", JBool(false)))
  }

  datatype BuscarReply =
    | BadRequest(message: string)             // HTTP 400
    | InternalError                           // a body that is not an object: `data.get` raises; HTTP 200 with "Erro interno: ..."
    | Accepted(request: SearchRequest)

  /**
   * `/buscar` on the parsed body (`None` when there is none): 400 when it is
   * missing or falsy; for any other non-object the except branch answers
   * 200 with an "Erro interno: ..." error; 400 when `valor` is missing or
   * falsy; otherwise the request that is queued.
   */
  function ValidateBuscar(body: Option<Value>): (r: BuscarReply)
    ensures r.BadRequest? <==>
      body.None? || !Truthy(body.value) || (body.value.JObject? && !Truthy(Get(body.value.fields, "valor", JStr(""))))
    ensures r.InternalError? <==> body.Some? && Truthy(body.value) && !body.value.JObject?
    ensures r.Accepted? ==> body.value.JObject? && r.request == RequestOf(body.value.fields) && Truthy(r.request.valor)
  {
    if body.None? || !Truthy(body.value) then BadRequest("Dados não fornecidos")
    else if !body.value.JObject? then InternalError
    else
      var request := RequestOf(body.value.fields);
      if !Truthy(request.valor) then BadRequest("Valor de busca não fornecido")
      else Accepted(request)
  }

  const MaxBatch: nat := 10

  datatype BatchReply =
    | BatchRejected(message: string)          // HTTP 400
    | BatchInternalError                      // an entry is not an object: `busca.get` raises, HTTP 200 with an error
    | BatchPlan(errors: seq<nat>, submitted: seq<(nat, SearchRequest)>)

  /**
   * Python's `"buscas" in data` on a truthy body: a key of an object, a
   * substring of a text, an element of a list; `None` where the operator
   * raises (a number or `true`).
   */
  function BuscasIn(v: Value): (r: Option<bool>)
    ensures r.None? <==> v.JNull? || v.JBool? || v.JInt?
    ensures v.JObject? ==> r == Some("buscas" in v.fields)
  {
    match v
    case JObject(fields) => Some("buscas" in fields)
    case JStr(s) => Some(StringUtil.Contains(s, "buscas"))
    case JList(items) => Some(JStr("buscas") in items)
    case _ => None
  }

  /**
   * `/buscar_multiplo` on the parsed body (`None` when there is none): 400
   * when it is missing or falsy, has no "buscas", or holds no list of 1 to 10
   * entries there; an internal error, answered with HTTP 200, when the
   * membership test or the indexing raises on a body that is not an object,
   * or an entry is not an object; otherwise the plan of the loop.
   */
  method PlanBuscarMultiplo(body: Option<Value>) returns (r: BatchReply)
    ensures r.BatchRejected? <==>
      || body.None? || !Truthy(body.value) || BuscasIn(body.value) == Some(false)
      || (body.value.JObject? && "buscas" in body.value.fields
          && (!body.value.fields["buscas"].JList? || |body.value.fields["buscas"].items| == 0
              || |body.value.fields["buscas"].items| > MaxBatch))
    ensures r.BatchInternalError? <==>
      && !r.BatchRejected?
      && (|| !body.value.JObject?
          || exists i :: 0 <= i < |body.value.fields["buscas"].items| && !body.value.fields["buscas"].items[i].JObject?)
    ensures r.BatchPlan? ==> body.value.JObject? && "buscas" in body.value.fields && body.value.fields["buscas"].JList?
    ensures r.BatchPlan? ==> forall i :: 0 <= i < |body.value.fields["buscas"].items| ==> body.value.fields["buscas"].items[i].JObject?
    ensures r.BatchPlan? ==> forall i :: 0 <= i < |body.value.fields["buscas"].items| ==>
      var entry := body.value.fields["buscas"].items[i].fields;
      && (i in r.errors <==> !Truthy(Get(entry, "valor", JStr(""))))
      && ((i, RequestOf(entry)) in r.submitted <==> Truthy(Get(entry, "valor", JStr(""))))
    ensures r.BatchPlan? ==> |r.errors| + |r.submitted| <= |body.value.fields["buscas"].items|
  {
    if body.None? || !Truthy(body.value) {
      return BatchRejected("Lista de buscas não fornecida");
    }
    var present := BuscasIn(body.value);
    if present.None? {
      return BatchInternalError;
    }
    if !present.value {
      return BatchRejected("Lista de buscas não fornecida");
    }
    if !body.value.JObject? {
      return BatchInternalError;
    }
    var buscas := body.value.fields["buscas"];
    if !buscas.JList? || |buscas.items| == 0 {
      return BatchRejected("Lista de buscas inválida");
    }
    if |buscas.items| > MaxBatch {
      return BatchRejected("Máximo de 10 buscas simultâneas permitido");
    }
    var errors: seq<nat> := [];
    var submitted: seq<(nat, SearchRequest)> := [];
    var i := 0;
    while i < |buscas.items|
      invariant 0 <= i <= |buscas.items|
      invariant |errors| + |submitted| <= i
      invariant forall e :: e in errors ==> e < i
      invariant forall p :: p in submitted ==> p.0 < i
      invariant forall j :: 0 <= j < i ==> buscas.items[j].JObject?
      invariant forall j :: 0 <= j < i ==>
        var entry := buscas.items[j].fields;
        && (j in errors <==> !Truthy(Get(entry, "valor", JStr(""))))
        && ((j, RequestOf(entry)) in submitted <==> Truthy(Get(entry, "valor", JStr(""))))
    {
      var busca := buscas.items[i];
      if !busca.JObject? {
        return BatchInternalError;
      }
      var entry := busca.fields;
      var request := RequestOf(entry);
      if !Truthy(request.valor) {
        errors := errors + [i];
      } else {
        submitted := submitted + [(i, request)];
      }
      i := i + 1;
    }
    r := BatchPlan(errors, submitted);
  }
}
