/** The query gateway, `POST /api/device-events` (www/app/api/device-events/route.ts):
    validate the device id, build the store query as a list of clauses, run it against an
    opaque store, and shape the JSON reply for success, store error and exception. */
module Gateway {
  import opened Options
  import opened Js
  import opened Events

  /** The destructured request body `{ device_id, from, to }`; a missing property is `Undefined`. */
  datatype RequestBody = RequestBody(deviceId: JsValue, from: JsValue, to: JsValue)

  /** What `await request.json()` produced: a body, or a thrown value (malformed JSON). */
  datatype Incoming = Parsed(body: RequestBody) | Unreadable(e: Thrown)

  /** One call of the store's query builder. */
  datatype Clause =
    | From(table: string)
    | Select(columns: string)
    | Eq(column: string, value: JsValue)
    | Order(column: string, ascending: bool)
    | Gte(column: string, value: JsValue)
    | Lte(column: string, value: JsValue)

  /** What awaiting the query gave: the `{ data, error }` pair, or a rejection. */
  datatype StoreOutcome =
    | Resolved(data: Option<seq<DeviceEvent>>, error: Option<string>)
    | Rejected(e: Thrown)

  datatype Body =
    | Failure(error: string, details: Option<string>)
    | Listing(events: seq<DeviceEvent>, count: nat, deviceId: JsValue, from: JsValue, to: JsValue)

  datatype Response = Response(status: nat, body: Body)

  const MISSING_DEVICE_ID := "device_id is required"
  const DATABASE_FAILED := "Database query failed"
  const INTERNAL_ERROR := "Internal server error"
  const UNKNOWN_ERROR := "Unknown error"

  /** The clauses every query starts with: the table, all columns, the device filter and
      newest-first order. */
  function BaseQuery(deviceId: JsValue): seq<Clause> {
    [From("events"), Select("*"), Eq("device_id", deviceId), Order("created_at", false)]
  }

  /** The query builder: the base query, then a lower bound on `created_at` when `from`
      is truthy, then an upper bound when `to` is truthy. */
  function Query(deviceId: JsValue, from: JsValue, to: JsValue): (q: seq<Clause>)
    ensures |q| == 4 + (if Truthy(from) then 1 else 0) + (if Truthy(to) then 1 else 0)
    ensures q[..4] == [From("events"), Select("*"), Eq("device_id", deviceId), Order("created_at", false)]
    ensures Gte("created_at", from) in q <==> Truthy(from)
    ensures Lte("created_at", to) in q <==> Truthy(to)
    ensures forall i :: 4 <= i < |q| ==> q[i] == Gte("created_at", from) || q[i] == Lte("created_at", to)
    ensures Truthy(from) ==> q[4] == Gte("created_at", from)
  {
    var query := BaseQuery(deviceId);
    var query := if Truthy(from) then query + [Gte("created_at", from)] else query;
    if Truthy(to) then query + [Lte("created_at", to)] else query
  }

  /** The handler up to the store call: either an immediate reply, or the query to run. */
  datatype Step = Reply(response: Response) | RunQuery(clauses: seq<Clause>, request: RequestBody)

  /** The `details` of a reply for a thrown value. */
  function ExceptionReply(e: Thrown): Response {
    Response(500, Failure(INTERNAL_ERROR, Some(MessageOr(e, UNKNOWN_ERROR))))
  }

  /** Validation: a falsy `device_id` is answered with 400 before any query is built. */
  function Plan(incoming: Incoming): (s: Step)
    ensures s.RunQuery? <==> incoming.Parsed? && Truthy(incoming.body.deviceId)
    ensures s.RunQuery? ==>
              s.request == incoming.body
              && s.clauses == Query(s.request.deviceId, s.request.from, s.request.to)
    ensures incoming.Parsed? && !Truthy(incoming.body.deviceId) ==>
      s == Reply(Response(400, Failure(MISSING_DEVICE_ID, None)))
  {
    match incoming
    case Unreadable(e) => Reply(ExceptionReply(e))
    case Parsed(body) =>
      if !Truthy(body.deviceId) then Reply(Response(400, Failure(MISSING_DEVICE_ID, None)))
      else RunQuery(Query(body.deviceId, body.from, body.to), body)
  }

  /** The reply once the store has answered. */
  function Finish(request: RequestBody, store: StoreOutcome): Response {
    match store
    case Rejected(e) => ExceptionReply(e)
    case Resolved(data, error) =>
      if error.Some? then Response(500, Failure(DATABASE_FAILED, Some(error.value)))
      else
        var events := data.GetOr([]);
        Response(200, Listing(events, |events|, request.deviceId, request.from, request.to))
  }

  /** The whole handler, `POST(request)`, given what the request body and the store yield. */
  function Post(incoming: Incoming, store: StoreOutcome): (r: Response)
    // an unreadable body is an internal error whose details are the exception's message
    ensures incoming.Unreadable? ==> r == ExceptionReply(incoming.e)
    // a falsy device id is a 400 with the fixed message
    ensures incoming.Parsed? && !Truthy(incoming.body.deviceId) ==>
      r.status == 400 && r.body == Failure(MISSING_DEVICE_ID, None)
    // otherwise the store decides
    ensures incoming.Parsed? && Truthy(incoming.body.deviceId) ==>
      match store
      case Rejected(e) =>
        r.status == 500 && r.body == Failure(INTERNAL_ERROR, Some(MessageOr(e, UNKNOWN_ERROR)))
      case Resolved(data, error) =>
        if error.Some? then r.status == 500 && r.body == Failure(DATABASE_FAILED, Some(error.value))
        else
          && r.status == 200 && r.body.Listing?
          && r.body.events == (if data.Some? then data.value else [])
          && r.body.count == |r.body.events|
          && r.body.deviceId == incoming.body.deviceId
          && r.body.from == incoming.body.from
          && r.body.to == incoming.body.to
  {
    match Plan(incoming)
    case Reply(response) => response
    case RunQuery(_, request) => Finish(request, store)
  }

  /** Every reply is 200 with a listing whose count is its length, or 400/500 with an error. */
  lemma ReplyShapes(incoming: Incoming, store: StoreOutcome)
    ensures var r := Post(incoming, store);
      && (r.status == 200 || r.status == 400 || r.status == 500)
      && (r.status == 200 <==> r.body.Listing?)
      && (r.body.Listing? ==> r.body.count == |r.body.events|)
      && (r.status == 400 <==> r.body == Failure(MISSING_DEVICE_ID, None))
  {
    match incoming
    case Unreadable(e) =>
    case Parsed(body) =>
      if Truthy(body.deviceId) {
        match store
        case Rejected(e) =>
        case Resolved(data, error) =>
      }
  }

  /** A request with a falsy device id never reaches the store: its reply is the same
      whatever the store would have said. */
  lemma MissingDeviceIdSkipsStore(body: RequestBody, s1: StoreOutcome, s2: StoreOutcome)
    requires !Truthy(body.deviceId)
    ensures Plan(Parsed(body)).Reply?
    ensures Post(Parsed(body), s1) == Post(Parsed(body), s2)
  {
  }

  /** Conversely, with a truthy device id the reply depends on the store: a store error and
      a successful listing never give the same reply. */
  lemma StoreDecides(body: RequestBody, message: string, rows: Option<seq<DeviceEvent>>)
    requires Truthy(body.deviceId)
    ensures Post(Parsed(body), Resolved(rows, Some(message))) != Post(Parsed(body), Resolved(rows, None))
  {
  }
}
