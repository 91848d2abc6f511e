/** The dashboard and the gateway together: the request the page sends is what the
    gateway validates, and the gateway's reply is what the page settles its state from. */
module ClientServer {
  import opened Options
  import opened Js
  import opened Events
  import opened Dashboard
  import Gateway

  /** The page's JSON body as the gateway destructures it (`from || null` arrives as null). */
  function BodyOf(req: QueryRequest): Gateway.RequestBody {
    Gateway.RequestBody(Str(req.deviceId), OrNull(req.from), OrNull(req.to))
  }

  /** The fields the page reads out of a gateway reply. */
  function ApiOf(body: Gateway.Body): ApiResponse {
    match body
    case Failure(error, _) => ApiResponse(None, Some(error))
    case Listing(events, _, _, _, _) => ApiResponse(Some(events), None)
  }

  /** A gateway reply as the page's `fetch` sees it; `ok` is a 2xx status. */
  function Delivered(r: Gateway.Response): FetchOutcome {
    Responded(200 <= r.status < 300, r.status, ApiOf(r.body))
  }

  /** Every request the page sends passes the gateway's validation (the page trims and
      rejects a blank id first), filters on the trimmed id, and carries a lower or upper
      bound exactly when the corresponding date field is non-empty. */
  lemma PageRequestsPassValidation(deviceId: string, fromDate: string, toDate: string)
    requires RequestFor(deviceId, fromDate, toDate).Some?
    ensures var body := BodyOf(RequestFor(deviceId, fromDate, toDate).value);
            var plan := Gateway.Plan(Gateway.Parsed(body));
            && plan.RunQuery?
            && Gateway.Eq("device_id", Str(Trim(deviceId))) in plan.clauses
            && (Gateway.Gte("created_at", body.from) in plan.clauses <==> fromDate != "")
            && (Gateway.Lte("created_at", body.to) in plan.clauses <==> toDate != "")
  {
    var body := BodyOf(RequestFor(deviceId, fromDate, toDate).value);
    var plan := Gateway.Plan(Gateway.Parsed(body));
    assert plan.clauses[..4][2] == Gateway.Eq("device_id", Str(Trim(deviceId)));
  }

  /** So the page never sees the gateway's "device_id is required" reply. */
  lemma PageNeverGetsMissingDeviceId(deviceId: string, fromDate: string, toDate: string,
                                     store: Gateway.StoreOutcome)
    requires RequestFor(deviceId, fromDate, toDate).Some?
    ensures Gateway.Post(Gateway.Parsed(BodyOf(RequestFor(deviceId, fromDate, toDate).value)), store).status != 400
  {
    PageRequestsPassValidation(deviceId, fromDate, toDate);
  }

  /** Rows the store returns end up, unchanged and in order, as the page's events. */
  lemma RowsReachPage(req: QueryRequest, rows: Option<seq<DeviceEvent>>)
    requires req.deviceId != ""
    ensures var o := Delivered(Gateway.Post(Gateway.Parsed(BodyOf(req)), Gateway.Resolved(rows, None)));
            Succeeded(o) && ReceivedEvents(o) == rows.GetOr([])
  {
  }

  /** A store error reaches the page as the message "Database query failed". */
  lemma StoreErrorReachesPage(req: QueryRequest, rows: Option<seq<DeviceEvent>>, message: string)
    requires req.deviceId != ""
    ensures var o := Delivered(Gateway.Post(Gateway.Parsed(BodyOf(req)), Gateway.Resolved(rows, Some(message))));
            !Succeeded(o) && FailureMessage(o) == Gateway.DATABASE_FAILED
  {
  }

  /** A store that throws reaches the page as the message "Internal server error". */
  lemma StoreExceptionReachesPage(req: QueryRequest, e: Thrown)
    requires req.deviceId != ""
    ensures var o := Delivered(Gateway.Post(Gateway.Parsed(BodyOf(req)), Gateway.Rejected(e)));
            !Succeeded(o) && FailureMessage(o) == Gateway.INTERNAL_ERROR
  {
  }
}
