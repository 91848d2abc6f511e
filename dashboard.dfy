/** The dashboard page (www/app/page.tsx): the component's state fields and the handlers
    that change them, with the request and response of the fetch lifecycle as values, and
    the pure derivations the page renders from its state (chart series, capped table). */
module Dashboard {
  import opened Options
  import opened Js
  import opened Events

  /** A point in time, in milliseconds since the epoch (`Date.getTime()`). */
  type Millis = int

  const MINUTE_MS: int := 60 * 1000
  const DAY_MS: int := 24 * 60 * 60 * 1000

  const NO_DEVICE_ID := "Please enter a device ID"
  const FETCH_FAILED := "Failed to fetch events"

  /** Rows shown in the events table. */
  const TABLE_ROWS: nat := 10

  /** The length, in minutes, of a quick-range tag; `None` for any other string. */
  function RangeMinutes(range: string): Option<nat> {
    if range == "30min" then Some(30)
    else if range == "1hour" then Some(60)
    else if range == "1day" then Some(24 * 60)
    else None
  }

  /** The tags of the quick-range buttons. */
  predicate IsQuickRange(range: string) {
    range == "30min" || range == "1hour" || range == "1day"
  }

  /** The quick-range table has exactly the three tags, with 30, 60 and 1440 minutes. */
  lemma RangeTable(range: string)
    ensures RangeMinutes(range).Some? <==> IsQuickRange(range)
    ensures range == "30min" ==> RangeMinutes(range) == Some(30)
    ensures range == "1hour" ==> RangeMinutes(range) == Some(60)
    ensures range == "1day" ==> RangeMinutes(range) == Some(1440)
  {
  }

  /** `getDefaultDates`: the last 24 hours, each end formatted by `iso`
      (`toISOString().slice(0, 16)`). */
  function DefaultDates(now: Millis, iso: Millis -> string): (dates: (string, string)) {
    (iso(now - DAY_MS), iso(now))
  }

  /** The default window is the "1day" quick range. */
  lemma DefaultIsOneDay(now: Millis, iso: Millis -> string)
    ensures DefaultDates(now, iso) == (iso(now - RangeMinutes("1day").value * MINUTE_MS), iso(now))
  {
  }

  /** The JSON body a fetch sends. */
  datatype QueryRequest = QueryRequest(deviceId: string, from: Option<string>, to: Option<string>)

  /** The request a fetch issues for the given form fields, or `None` when the device id is
      blank and the fetch stops at its guard. */
  function RequestFor(deviceId: string, fromDate: string, toDate: string): (req: Option<QueryRequest>)
    ensures req.None? <==> AllWhitespace(deviceId)
    ensures req.Some? ==>
              && req.value.deviceId == Trim(deviceId) && req.value.deviceId != ""
              && (req.value.from == if fromDate == "" then None else Some(fromDate))
              && (req.value.to == if toDate == "" then None else Some(toDate))
  {
    var id := Trim(deviceId);
    if id == "" then None
    else Some(QueryRequest(id,
                           if fromDate != "" then Some(fromDate) else None,
                           if toDate != "" then Some(toDate) else None))
  }

  /** The fields of the reply body the page reads. */
  datatype ApiResponse = ApiResponse(events: Option<seq<DeviceEvent>>, error: Option<string>)

  /** How the awaited part of a fetch ended: a response was read (`ok`, `status` and its
      JSON), or `fetch` or `response.json()` threw. */
  datatype FetchOutcome = Responded(ok: bool, status: nat, data: ApiResponse) | Threw(e: Thrown)

  predicate Succeeded(o: FetchOutcome) {
    o.Responded? && o.ok
  }

  /** `data.events || []` of a successful fetch. */
  function ReceivedEvents(o: FetchOutcome): seq<DeviceEvent>
    requires Succeeded(o)
  {
    o.data.events.GetOr([])
  }

  /** The message shown for a failed fetch: the reply's non-empty `error`, else
      "HTTP <status>" for a response that was not ok; the exception's message for a thrown
      Error, and a fixed text for anything else thrown. */
  function FailureMessage(o: FetchOutcome): (m: string)
    requires !Succeeded(o)
    ensures o.Responded? ==>
              if o.data.error.Some? && o.data.error.value != "" then m == o.data.error.value
              else m == "HTTP " + Decimal(o.status)
    ensures o.Threw? && o.e.ErrorObject? ==> m == o.e.message
    ensures o.Threw? && o.e.NonError? ==> m == FETCH_FAILED
    ensures o.Responded? ==> m != ""
  {
    match o
    case Responded(_, status, data) =>
      if data.error.Some? && data.error.value != "" then data.error.value
      else "HTTP " + Decimal(status)
    case Threw(e) => MessageOr(e, FETCH_FAILED)
  }

  /** A response without an `error` field is reported by its status, and the status can be
      read back out of the message. */
  lemma StatusMessageNamesStatus(status: nat, events: Option<seq<DeviceEvent>>)
    ensures var m := FailureMessage(Responded(false, status, ApiResponse(events, None)));
            m[..5] == "HTTP " && DecimalValue(m[5..]) == status
  {
    var m := FailureMessage(Responded(false, status, ApiResponse(events, None)));
    assert m[5..] == Decimal(status);
    DecimalRoundTrip(status);
  }

  /** The page component's state. */
  class DashboardPage {
    var deviceId: string
    var fromDate: string
    var toDate: string
    var events: Option<seq<DeviceEvent>>
    var loading: bool
    var error: Option<string>
    var selectedRange: string

    /** The tag is empty or a quick range, and a fetch in flight has cleared the error and
        the previous events. */
    ghost predicate Valid()
      reads this
    {
      && (selectedRange == "" || IsQuickRange(selectedRange))
      && (loading ==> events.None? && error.None?)
    }

    /** The first render: empty id, the default 24-hour window, nothing fetched. */
    constructor(now: Millis, iso: Millis -> string)
      ensures Valid()
      ensures deviceId == "" && (fromDate, toDate) == DefaultDates(now, iso)
      ensures events.None? && !loading && error.None? && selectedRange == ""
    {
      deviceId := "";
      events := None;
      loading := false;
      error := None;
      selectedRange := "";
      var defaults := DefaultDates(now, iso);
      fromDate := defaults.0;
      toDate := defaults.1;
    }

    /** Typing in the device id field. */
    method EditDeviceId(value: string)
      requires Valid()
      modifies this
      ensures Valid()
      ensures deviceId == value
      ensures fromDate == old(fromDate) && toDate == old(toDate) && selectedRange == old(selectedRange)
      ensures events == old(events) && loading == old(loading) && error == old(error)
    {
      deviceId := value;
    }

    /** `setQuickRange(range)`: a known tag sets the window to the last 30 minutes, hour or
        day before `now` and selects the tag; any other string changes nothing. */
    method SetQuickRange(range: string, now: Millis, iso: Millis -> string)
      requires Valid()
      modifies this
      ensures Valid()
      ensures IsQuickRange(range) ==>
                && fromDate == iso(now - RangeMinutes(range).value * MINUTE_MS)
                && toDate == iso(now)
                && selectedRange == range
      ensures !IsQuickRange(range) ==>
                fromDate == old(fromDate) && toDate == old(toDate) && selectedRange == old(selectedRange)
      ensures deviceId == old(deviceId) && events == old(events)
      ensures loading == old(loading) && error == old(error)
    {
      var minutes := RangeMinutes(range);
      if minutes.None? {
        return;
      }
      fromDate := iso(now - minutes.value * MINUTE_MS);
      toDate := iso(now);
      selectedRange := range;
    }

    /** The Clear button: no tag and both ends empty. */
    method Clear()
      requires Valid()
      modifies this
      ensures Valid()
      ensures selectedRange == "" && fromDate == "" && toDate == ""
      ensures deviceId == old(deviceId) && events == old(events)
      ensures loading == old(loading) && error == old(error)
    {
      selectedRange := "";
      fromDate := "";
      toDate := "";
    }

    /** Editing the "from" field sets it and deselects the quick range. */
    method EditFromDate(value: string)
      requires Valid()
      modifies this
      ensures Valid()
      ensures fromDate == value && selectedRange == ""
      ensures toDate == old(toDate) && deviceId == old(deviceId) && events == old(events)
      ensures loading == old(loading) && error == old(error)
    {
      fromDate := value;
      selectedRange := "";
    }

    /** Editing the "to" field sets it and deselects the quick range. */
    method EditToDate(value: string)
      requires Valid()
      modifies this
      ensures Valid()
      ensures toDate == value && selectedRange == ""
      ensures fromDate == old(fromDate) && deviceId == old(deviceId) && events == old(events)
      ensures loading == old(loading) && error == old(error)
    {
      toDate := value;
      selectedRange := "";
    }

    /** The fetch button is disabled while a fetch is in flight. */
    predicate FetchEnabled()
      reads this
    {
      !loading
    }

    /** `fetchDeviceEvents` up to its `await`: a blank device id only sets the error and
        sends nothing; otherwise the page enters loading, clears the error and the events,
        and sends the request built from the form. */
    method BeginFetch() returns (request: Option<QueryRequest>)
      requires Valid() && FetchEnabled()
      modifies this
      ensures Valid()
      ensures request == RequestFor(old(deviceId), old(fromDate), old(toDate))
      ensures request.None? ==>
                error == Some(NO_DEVICE_ID) && events == old(events) && loading == old(loading)
      ensures request.Some? ==> loading && error.None? && events.None?
      ensures deviceId == old(deviceId) && fromDate == old(fromDate) && toDate == old(toDate)
      ensures selectedRange == old(selectedRange)
    {
      request := RequestFor(deviceId, fromDate, toDate);
      if request.None? {
        error := Some(NO_DEVICE_ID);
        return;
      }
      loading := true;
      error := None;
      events := None;
    }

    /** `fetchDeviceEvents` after its `await`: success stores the received events, a
        failure stores its message, and loading ends either way. */
    method CompleteFetch(outcome: FetchOutcome)
      requires Valid() && loading
      modifies this
      ensures Valid()
      ensures !loading
      ensures Succeeded(outcome) ==> events == Some(ReceivedEvents(outcome)) && error == old(error)
      ensures !Succeeded(outcome) ==> error == Some(FailureMessage(outcome)) && events == old(events)
      ensures deviceId == old(deviceId) && fromDate == old(fromDate) && toDate == old(toDate)
      ensures selectedRange == old(selectedRange)
    {
      match outcome {
        case Threw(e) =>
          error := Some(MessageOr(e, FETCH_FAILED));
        case Responded(ok, status, data) =>
          if !ok {
            error := Some(if data.error.Some? && data.error.value != "" then data.error.value
                          else "HTTP " + Decimal(status));
          } else {
            events := Some(data.events.GetOr([]));
          }
      }
      loading := false;
    }
  }

  /** A whole fetch from the idle page: a failure leaves the page with no events and the
      error shown; a success with the events and no error. */
  method Fetch(page: DashboardPage, outcome: FetchOutcome) returns (request: Option<QueryRequest>)
    requires page.Valid() && page.FetchEnabled()
    modifies page
    ensures page.Valid() && !page.loading
    ensures request == RequestFor(old(page.deviceId), old(page.fromDate), old(page.toDate))
    ensures request.None? ==> page.error == Some(NO_DEVICE_ID) && page.events == old(page.events)
    ensures request.Some? && Succeeded(outcome) ==>
              page.events == Some(ReceivedEvents(outcome)) && page.error.None?
    ensures request.Some? && !Succeeded(outcome) ==>
              page.events.None? && page.error == Some(FailureMessage(outcome))
    // a fetch leaves the form as it was
    ensures page.deviceId == old(page.deviceId) && page.fromDate == old(page.fromDate)
    ensures page.toDate == old(page.toDate) && page.selectedRange == old(page.selectedRange)
  {
    request := page.BeginFetch();
    if request.Some? {
      page.CompleteFetch(outcome);
    }
  }

  /** One point of the chart series. */
  datatype ChartPoint = ChartPoint(
    timestamp: string,
    fullTimestamp: string,
    measure1: real,
    deviceId: string,
    rawTimestamp: string)

  /** The chart point of an event; `timeLabel` and `fullLabel` stand for the locale
      formatting of its `created_at`. */
  function PointOf(e: DeviceEvent, timeLabel: string -> string, fullLabel: string -> string): ChartPoint {
    ChartPoint(timeLabel(e.createdAt), fullLabel(e.createdAt), e.measure1, e.deviceId, e.createdAt)
  }

  /** `s` in the opposite order. */
  function Reverse<T>(s: seq<T>): (r: seq<T>)
    ensures |r| == |s|
    ensures forall i :: 0 <= i < |s| ==> r[i] == s[|s| - 1 - i]
  {
    if s == [] then [] else Reverse(s[1..]) + [s[0]]
  }

  /** Reversing twice gives the events back in their original order. */
  lemma ReverseTwice<T>(s: seq<T>)
    ensures Reverse(Reverse(s)) == s
  {
  }

  /** `getChartData`: no points without events; otherwise one point per event, in reverse. */
  function ChartData(events: Option<seq<DeviceEvent>>, timeLabel: string -> string, fullLabel: string -> string)
    : (points: seq<ChartPoint>)
    ensures events.None? ==> points == []
    ensures events.Some? ==> |points| == |events.value|
    ensures events.Some? ==>
              forall i :: 0 <= i < |points| ==>
                points[i] == PointOf(events.value[|points| - 1 - i], timeLabel, fullLabel)
  {
    if events.None? || |events.value| == 0 then []
    else
      var es := events.value;
      Reverse(seq(|es|, i requires 0 <= i < |es| => PointOf(es[i], timeLabel, fullLabel)))
  }

  /** Events the store returned newest first (by some ranking of `created_at`) are
      charted oldest first. */
  lemma ChartIsChronological(events: seq<DeviceEvent>, rank: string -> int,
                             timeLabel: string -> string, fullLabel: string -> string)
    requires forall i, j :: 0 <= i < j < |events| ==> rank(events[i].createdAt) >= rank(events[j].createdAt)
    ensures var points := ChartData(Some(events), timeLabel, fullLabel);
            forall i, j :: 0 <= i < j < |points| ==> rank(points[i].rawTimestamp) <= rank(points[j].rawTimestamp)
  {
    var points := ChartData(Some(events), timeLabel, fullLabel);
    var n := |events|;
    forall i, j | 0 <= i < j < |points|
      ensures rank(points[i].rawTimestamp) <= rank(points[j].rawTimestamp)
    {
      assert points[i].rawTimestamp == events[n - 1 - i].createdAt;
      assert points[j].rawTimestamp == events[n - 1 - j].createdAt;
    }
  }

  /** `events.slice(0, 10)`: the first ten events, or all of them when there are fewer. */
  function TableRows(events: seq<DeviceEvent>): (rows: seq<DeviceEvent>)
    ensures |rows| == if |events| < TABLE_ROWS then |events| else TABLE_ROWS
    ensures rows == events[..|rows|]
  {
    if |events| < TABLE_ROWS then events else events[..TABLE_ROWS]
  }

  /** What the results area shows: nothing before a fetch succeeds, a "no events" notice
      for an empty result, otherwise the chart, the capped table and, when rows were cut,
      the "Showing first 10 of N" notice. */
  datatype ResultsView =
    | Hidden
    | NoEventsFound
    | Populated(chart: seq<ChartPoint>, rows: seq<DeviceEvent>, truncatedOf: Option<nat>)

  function Results(events: Option<seq<DeviceEvent>>, timeLabel: string -> string, fullLabel: string -> string)
    : ResultsView
  {
    match events
    case None => Hidden
    case Some(es) =>
      if |es| == 0 then NoEventsFound
      else Populated(ChartData(events, timeLabel, fullLabel), TableRows(es),
                     if |es| > TABLE_ROWS then Some(|es|) else None)
  }

  /** The results area for a non-empty result: as many chart points as events, at most
      ten rows, and the truncation notice exactly when there are more than ten. */
  lemma PopulatedResults(es: seq<DeviceEvent>, timeLabel: string -> string, fullLabel: string -> string)
    requires es != []
    ensures var v := Results(Some(es), timeLabel, fullLabel);
            && v.Populated?
            && |v.chart| == |es|
            && |v.rows| == (if |es| <= 10 then |es| else 10) && v.rows == es[..|v.rows|]
            && (v.truncatedOf.Some? <==> |es| > 10)
            && (v.truncatedOf.Some? ==> v.truncatedOf.value == |es|)
  {
  }

  /** Fifteen events give ten rows and the "Showing first 10 of 15" notice; five give five
      rows and no notice. */
  lemma TableExamples(fifteen: seq<DeviceEvent>, five: seq<DeviceEvent>,
                      timeLabel: string -> string, fullLabel: string -> string)
    requires |fifteen| == 15 && |five| == 5
    ensures var v := Results(Some(fifteen), timeLabel, fullLabel);
            v.Populated? && |v.rows| == 10 && v.truncatedOf == Some(15)
    ensures var v := Results(Some(five), timeLabel, fullLabel);
            v.Populated? && |v.rows| == 5 && v.truncatedOf.None?
  {
    PopulatedResults(fifteen, timeLabel, fullLabel);
    PopulatedResults(five, timeLabel, fullLabel);
  }
}
