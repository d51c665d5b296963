/**
 * Event retrieval: the filter is validated (date range, event name, retrieve
 * count, in that order), the query holds only the supplied parameters, and
 * the response is renamed into {totalRecords, events}. Dates are Unix
 * timestamps in seconds.
 */
module Events {
  import opened Wrappers
  import opened Php
  import opened Exceptions
  import opened BaseClient

  const EventOptions: seq<string> :=
    ["accepted", "rejected", "delivered", "opened", "clicked", "unsubscribed", "complained", "failed"]

  datatype EventFilter = EventFilter(
    startDate: Option<int>,
    endDate: Option<int>,
    event: Option<string>,
    messageId: Option<string>,
    startFrom: Option<int>,
    retrieveCount: Option<int>)

  const DateRangeMessage := "Error: Invalid date range - End date must be after start date"
  const RetrieveCountMessage := "Error: Invalid retrieve count - must be between 1 and 100"

  function EventNameMessage(event: string): string {
    "Error: Invalid event name - '" + event + "' is not a valid event name"
  }

  /** Both dates given and the end not strictly after the start. */
  predicate BadDateRange(f: EventFilter) {
    f.startDate.Some? && f.endDate.Some? && f.endDate.value <= f.startDate.value
  }

  /** A truthy event name outside the eight known ones. */
  predicate BadEvent(f: EventFilter) {
    !Empty(OptStr(f.event)) && f.event.value !in EventOptions
  }

  /** A retrieve count outside 1..100. */
  predicate BadRetrieveCount(f: EventFilter) {
    f.retrieveCount.Some? && (f.retrieveCount.value <= 0 || f.retrieveCount.value > 100)
  }

  predicate ValidFilter(f: EventFilter) {
    !BadDateRange(f) && !BadEvent(f) && !BadRetrieveCount(f)
  }

  /**
   * The value the query holds under each key: dates and the start offset
   * whenever supplied, the event name and message id only when truthy, the
   * retrieve count whenever supplied; no other key.
   */
  function ExpectedParam(f: EventFilter, k: Key): Option<Value> {
    ParamAt(f, KeyRank(k))
  }

  /** The value the `j`-th conditional insertion adds, if any. */
  function ParamAt(f: EventFilter, j: nat): Option<Value> {
    if j == 0 then IntParam(f.startDate)
    else if j == 1 then IntParam(f.endDate)
    else if j == 2 then TruthyParam(f.event)
    else if j == 3 then TruthyParam(f.messageId)
    else if j == 4 then IntParam(f.startFrom)
    else if j == 5 then IntParam(f.retrieveCount)
    else None
  }

  /** The query keys, in the order `get` inserts them. */
  const ParamKeys: seq<string> := ["StartDate", "EndDate", "Event", "MessageID", "StartFrom", "RetrieveCount"]

  /** The position of a key in ParamKeys, or 6 for any other key. */
  function KeyRank(k: Key): nat {
    if k == K("StartDate") then 0
    else if k == K("EndDate") then 1
    else if k == K("Event") then 2
    else if k == K("MessageID") then 3
    else if k == K("StartFrom") then 4
    else if k == K("RetrieveCount") then 5
    else 6
  }

  /** What the query holds once the first `n` insertions have been considered. */
  ghost function ExpectedUpTo(f: EventFilter, n: nat, k: Key): Option<Value> {
    if KeyRank(k) < n then ExpectedParam(f, k) else None
  }

  /** The keys of an array, in order. */
  function KeysOf(es: seq<Entry>): seq<Key> {
    seq(|es|, i requires 0 <= i < |es| => es[i].key)
  }

  /** The keys among the first `n` of ParamKeys that the filter supplies, in insertion order. */
  function PresentKeys(f: EventFilter, n: nat): seq<Key>
    requires n <= 6
  {
    if n == 0 then []
    else PresentKeys(f, n - 1) + (if ParamAt(f, n - 1).Some? then [K(ParamKeys[n - 1])] else [])
  }

  lemma KeyRankOf(j: nat, k: Key)
    requires j < 6
    ensures KeyRank(K(ParamKeys[j])) == j
    ensures KeyRank(k) == j ==> k == K(ParamKeys[j])
  {
  }

  /** `$params[key] = v` when the filter supplies key number `j`, nothing otherwise. */
  lemma InsertStep(f: EventFilter, j: nat, p: seq<Entry>, p': seq<Entry>)
    requires j < 6
    requires forall k :: Lookup(p, k) == ExpectedUpTo(f, j, k)
    requires p' == if ParamAt(f, j).Some? then Assign(p, K(ParamKeys[j]), ParamAt(f, j).value) else p
    ensures forall k :: Lookup(p', k) == ExpectedUpTo(f, j + 1, k)
  {
    forall k ensures Lookup(p', k) == ExpectedUpTo(f, j + 1, k) {
      KeyRankOf(j, k);
    }
  }

  /**
   * One conditional insertion of the query builder: `$params[key] = v` when
   * the filter supplies `v`, the parameters unchanged otherwise.
   */
  method Insert(f: EventFilter, j: nat, params: seq<Entry>, key: string, v: Option<Value>) returns (params': seq<Entry>)
    requires j < 6 && key == ParamKeys[j] && v == ParamAt(f, j)
    requires QueryUpTo(f, j, params)
    ensures QueryUpTo(f, j + 1, params')
  {
    params' := params;
    if v.Some? {
      KeyRankOf(j, K(key));
      assert Lookup(params, K(key)) == None;
      params' := Assign(params', K(key), v.value);
      assert params' == params + [Entry(K(key), v.value)];
      assert KeysOf(params') == KeysOf(params) + [K(key)];
    }
    InsertStep(f, j, params, params');
  }

  /**
   * `params` is the query after the first `n` insertions: distinct keys, the
   * expected value under each key considered so far, in insertion order.
   */
  ghost predicate QueryUpTo(f: EventFilter, n: nat, params: seq<Entry>)
    requires n <= 6
  {
    && DistinctKeys(params)
    && (forall k :: Lookup(params, k) == ExpectedUpTo(f, n, k))
    && KeysOf(params) == PresentKeys(f, n)
  }

  /** After all six insertions the query holds exactly the expected parameters. */
  lemma QueryComplete(f: EventFilter, params: seq<Entry>)
    requires QueryUpTo(f, 6, params)
    ensures DistinctKeys(params) && KeysOf(params) == PresentKeys(f, 6)
    ensures forall k :: Lookup(params, k) == ExpectedParam(f, k)
  {
    assert forall k :: ExpectedUpTo(f, 6, k) == ExpectedParam(f, k);
  }

  /** A filter value as the query parameter it becomes. */
  function IntParam(o: Option<int>): Option<Value> {
    if o.Some? then Some(Int(o.value)) else None
  }

  /** A truthy filter string as the query parameter it becomes; a falsy one adds nothing. */
  function TruthyParam(o: Option<string>): Option<Value> {
    if !Empty(OptStr(o)) then Some(Str(o.value)) else None
  }

  /** Validates the filter and builds the query parameters by conditional insertion. */
  method BuildQuery(f: EventFilter) returns (r: Result<seq<Entry>, SendLayerError>)
    ensures BadDateRange(f) ==> r == Failure(ValidationError(DateRangeMessage))
    ensures !BadDateRange(f) && BadEvent(f) ==> r == Failure(ValidationError(EventNameMessage(f.event.value)))
    ensures !BadDateRange(f) && !BadEvent(f) && BadRetrieveCount(f) ==> r == Failure(ValidationError(RetrieveCountMessage))
    ensures r.Success? <==> ValidFilter(f)
    ensures r.Success? ==> DistinctKeys(r.value) && forall k :: Lookup(r.value, k) == ExpectedParam(f, k)
    ensures r.Success? ==> KeysOf(r.value) == PresentKeys(f, 6)
  {
    var params: seq<Entry> := [];
    assert QueryUpTo(f, 0, params);
    if f.startDate.Some? && f.endDate.Some? && f.endDate.value <= f.startDate.value {
      return Failure(ValidationError(DateRangeMessage));
    }
    params := Insert(f, 0, params, "StartDate", IntParam(f.startDate));
    params := Insert(f, 1, params, "EndDate", IntParam(f.endDate));
    if !Empty(OptStr(f.event)) && f.event.value !in EventOptions {
      return Failure(ValidationError(EventNameMessage(f.event.value)));
    }
    params := Insert(f, 2, params, "Event", TruthyParam(f.event));
    params := Insert(f, 3, params, "MessageID", TruthyParam(f.messageId));
    params := Insert(f, 4, params, "StartFrom", IntParam(f.startFrom));
    if f.retrieveCount.Some? && (f.retrieveCount.value <= 0 || f.retrieveCount.value > 100) {
      return Failure(ValidationError(RetrieveCountMessage));
    }
    params := Insert(f, 5, params, "RetrieveCount", IntParam(f.retrieveCount));
    QueryComplete(f, params);
    return Success(params);
  }

  /** The response renamed: `TotalRecords` (default 0) and `Events` (default []). */
  function Reshape(response: seq<Entry>): (r: seq<Entry>)
    ensures |r| == 2 && r[0].key == K("totalRecords") && r[1].key == K("events")
    ensures Isset(response, K("TotalRecords")) ==> r[0].val == Lookup(response, K("TotalRecords")).value
    ensures !Isset(response, K("TotalRecords")) ==> r[0].val == Int(0)
    ensures Isset(response, K("Events")) ==> r[1].val == Lookup(response, K("Events")).value
    ensures !Isset(response, K("Events")) ==> r[1].val == Arr([])
  {
    [ Entry(K("totalRecords"), Coalesce(Lookup(response, K("TotalRecords")), Int(0))),
      Entry(K("events"), Coalesce(Lookup(response, K("Events")), Arr([]))) ]
  }

  /**
   * get: validation, then one GET events request with the built query, then
   * the reshaped response. `sent` is the request made, None when validation
   * failed and nothing was sent.
   */
  method Get(http: Http, f: EventFilter) returns (r: Result<seq<Entry>, SendLayerError>, sent: Option<Request>)
    ensures sent.Some? <==> ValidFilter(f)
    ensures BadDateRange(f) ==> r == Failure(ValidationError(DateRangeMessage))
    ensures !BadDateRange(f) && BadEvent(f) ==> r == Failure(ValidationError(EventNameMessage(f.event.value)))
    ensures !BadDateRange(f) && !BadEvent(f) && BadRetrieveCount(f) ==> r == Failure(ValidationError(RetrieveCountMessage))
    ensures sent.Some? ==>
      && sent.value.verb == GET && sent.value.endpoint == "events" && sent.value.options.Query?
      && (forall k :: Lookup(sent.value.options.params, k) == ExpectedParam(f, k))
      && KeysOf(sent.value.options.params) == PresentKeys(f, 6)
      && var resp := MakeRequest(http.send(sent.value), http.decode);
         r == if resp.Success? then Success(Reshape(resp.value)) else Failure(resp.error)
  {
    var query := BuildQuery(f);
    if query.Failure? {
      return Failure(query.error), None;
    }
    var request := Request(GET, "events", Query(query.value));
    sent := Some(request);
    var response := MakeRequest(http.send(request), http.decode);
    if response.Failure? {
      r := Failure(response.error);
    } else {
      r := Success(Reshape(response.value));
    }
  }

  /** Equal dates are rejected; an end one second after the start is accepted and both are sent. */
  lemma DateRangeBoundary(t: int, f: EventFilter)
    requires f.startDate == Some(t)
    ensures f.endDate == Some(t) ==> BadDateRange(f) && !ValidFilter(f)
    ensures f.endDate == Some(t + 1) ==>
      && !BadDateRange(f)
      && ExpectedParam(f, K("StartDate")) == Some(Int(t))
      && ExpectedParam(f, K("EndDate")) == Some(Int(t + 1))
  {
  }

  /**
   * Once the dates and the event pass, the retrieve count alone decides: the
   * filter is accepted exactly for 1..100 (both bounds inclusive), and an
   * accepted count is sent as given.
   */
  lemma RetrieveCountBounds(f: EventFilter, n: int)
    requires f.retrieveCount == Some(n)
    requires !BadDateRange(f) && !BadEvent(f)
    ensures ValidFilter(f) <==> 1 <= n <= 100
    ensures ValidFilter(f) ==> ExpectedParam(f, K("RetrieveCount")) == Some(Int(n))
    ensures ValidFilter(f.(retrieveCount := Some(1))) && ValidFilter(f.(retrieveCount := Some(100)))
    ensures !ValidFilter(f.(retrieveCount := Some(0))) && !ValidFilter(f.(retrieveCount := Some(101)))
  {
  }

  /** A falsy event name ("" or "0") is neither validated nor sent. */
  lemma FalsyEventIgnored(f: EventFilter)
    requires f.event == Some("") || f.event == Some("0")
    ensures !BadEvent(f) && ExpectedParam(f, K("Event")) == None
  {
  }

  /** A start offset is sent whenever given, zero and negative values included. */
  lemma StartFromAlwaysSent(f: EventFilter, n: int)
    requires f.startFrom == Some(n)
    ensures ExpectedParam(f, K("StartFrom")) == Some(Int(n))
    ensures ValidFilter(f) <==> ValidFilter(f.(startFrom := None))
  {
  }

  /** With every parameter supplied and truthy, the query keys are in the order `get` inserts them. */
  lemma FullQueryOrder(f: EventFilter)
    requires f.startDate.Some? && f.endDate.Some? && f.startFrom.Some? && f.retrieveCount.Some?
    requires f.event.Some? && f.event.value != "" && f.event.value != "0"
    requires f.messageId.Some? && f.messageId.value != "" && f.messageId.value != "0"
    ensures PresentKeys(f, 6) == [K("StartDate"), K("EndDate"), K("Event"), K("MessageID"), K("StartFrom"), K("RetrieveCount")]
  {
    assert PresentKeys(f, 1) == [K("StartDate")];
    assert PresentKeys(f, 2) == [K("StartDate"), K("EndDate")];
    assert PresentKeys(f, 3) == [K("StartDate"), K("EndDate"), K("Event")];
    assert PresentKeys(f, 4) == [K("StartDate"), K("EndDate"), K("Event"), K("MessageID")];
    assert PresentKeys(f, 5) == [K("StartDate"), K("EndDate"), K("Event"), K("MessageID"), K("StartFrom")];
  }

  /** Only the six documented keys can appear in the query. */
  lemma OnlySixKeys(f: EventFilter, k: Key)
    requires forall j :: 0 <= j < |ParamKeys| ==> k != K(ParamKeys[j])
    ensures ExpectedParam(f, k) == None
  {
    if KeyRank(k) < 6 {
      KeyRankOf(KeyRank(k), k);
    }
  }
}
