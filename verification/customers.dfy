/** The listing composable: `fetchCustomers` builds the query from its
    arguments and the current pagination, asks the backend for one page, and
    normalises whichever response shape comes back into a list of records
    with display names and one canonical pagination record. */
module Customers {
  import opened Wrappers
  import opened Js

  /** Each field holds whatever the backend put there, so it is a JavaScript
      value rather than a number. */
  datatype Pagination = Pagination(pageNumber: JsValue, pageSize: JsValue, totalRecords: JsValue, totalPages: JsValue)

  datatype ListState = ListState(customers: seq<JsValue>, loading: bool, error: Option<string>, pagination: Pagination)

  /** The optional arguments of `fetchCustomers`; `status` and `deviceType`
      are accepted but never sent. */
  datatype Params = Params(
    pageNumber: Option<int>,
    pageSize: Option<int>,
    sortBy: Option<string>,
    sortDescending: Option<bool>,
    searchTerm: Option<string>,
    status: Option<string>,
    deviceType: Option<string>)

  const NoParams := Params(None, None, None, None, None, None, None)

  /** The query string sent with the listing request. */
  datatype Query = Query(pageNumber: JsValue, pageSize: JsValue, sortBy: string, sortDescending: bool, searchTerm: string)

  /** What the listing request did: delivered a parsed body, or threw an
      error whose `message` may be missing. */
  datatype FetchReply = Delivered(body: JsValue) | FetchFailed(message: Option<string>)

  const DefaultSortBy := "DeviceName"
  const UnknownDevice := "Unknown Device"
  const DefaultError := "Error fetching customers"
  /** The message of the TypeError a property read on `null` or `undefined`
      throws; its exact wording belongs to the JavaScript engine. */
  const TypeErrorMessage := "Cannot read properties of null"

  function InitialPagination(): (p: Pagination)
    ensures p.pageNumber == Num(1) && p.pageSize == Num(20)
    ensures p.totalRecords == Num(0) && p.totalPages == Num(0)
  {
    Pagination(Num(1), Num(20), Num(0), Num(0))
  }

  function InitialState(): (st: ListState)
    ensures st.customers == [] && !st.loading && st.error.None?
    ensures st.pagination == InitialPagination()
  {
    ListState([], false, None, InitialPagination())
  }

  function OptNum(o: Option<int>): JsValue {
    match o
    case None => Undefined
    case Some(n) => Num(n)
  }

  /** `s || fallback` for an optional string argument. */
  function OrString(o: Option<string>, fallback: string): string {
    match o
    case Some(s) => if s != "" then s else fallback
    case None => fallback
  }

  // ----- Query defaults -----

  function BuildQuery(params: Params, current: Pagination): (q: Query)
    ensures params.pageNumber.None? || params.pageNumber == Some(0) ==> q.pageNumber == current.pageNumber
    ensures params.pageNumber.Some? && params.pageNumber.value != 0 ==> q.pageNumber == Num(params.pageNumber.value)
    ensures params.pageSize.None? || params.pageSize == Some(0) ==> q.pageSize == current.pageSize
    ensures params.pageSize.Some? && params.pageSize.value != 0 ==> q.pageSize == Num(params.pageSize.value)
    ensures params.sortBy.None? || params.sortBy == Some("") ==> q.sortBy == "DeviceName"
    ensures params.sortBy.Some? && params.sortBy.value != "" ==> q.sortBy == params.sortBy.value
    ensures params.sortDescending.None? ==> !q.sortDescending
    ensures params.sortDescending.Some? ==> q.sortDescending == params.sortDescending.value
    ensures params.searchTerm.Some? ==> q.searchTerm == params.searchTerm.value
    ensures params.searchTerm.None? ==> q.searchTerm == ""
  {
    Query(
      Or(OptNum(params.pageNumber), current.pageNumber),
      Or(OptNum(params.pageSize), current.pageSize),
      OrString(params.sortBy, DefaultSortBy),
      match params.sortDescending case Some(b) => b case None => false,
      OrString(params.searchTerm, ""))
  }

  /** The `status` and `deviceType` filters do not reach the query. */
  lemma QueryIgnoresFilters(params: Params, status: Option<string>, deviceType: Option<string>, current: Pagination)
    ensures BuildQuery(params.(status := status, deviceType := deviceType), current) == BuildQuery(params, current)
  {
  }

  /** With no arguments the first request asks for page 1 of 20, sorted by
      device name ascending, with an empty search term. */
  lemma DefaultQuery()
    ensures BuildQuery(NoParams, InitialPagination()) == Query(Num(1), Num(20), "DeviceName", false, "")
  {
  }

  // ----- Records -----

  /** The value the records are taken from: `devices`, else `data`, else the
      body itself. */
  function RawData(body: JsValue): (raw: JsValue)
    ensures Truthy(Get(body, "devices")) ==> raw == Get(body, "devices")
    ensures !Truthy(Get(body, "devices")) && Truthy(Get(body, "data")) ==> raw == Get(body, "data")
    ensures !Truthy(Get(body, "devices")) && !Truthy(Get(body, "data")) ==> raw == body
  {
    Or(Or(Get(body, "devices"), Get(body, "data")), body)
  }

  /** `d.deviceName || d.name || 'Unknown Device'` */
  function DisplayName(d: JsValue): (name: JsValue)
    ensures Truthy(name)
    ensures Truthy(Get(d, "deviceName")) ==> name == Get(d, "deviceName")
    ensures !Truthy(Get(d, "deviceName")) && Truthy(Get(d, "name")) ==> name == Get(d, "name")
    ensures !Truthy(Get(d, "deviceName")) && !Truthy(Get(d, "name")) ==> name == Str("Unknown Device")
  {
    Or(Or(Get(d, "deviceName"), Get(d, "name")), Str(UnknownDevice))
  }

  /** `{...d, name: DisplayName(d)}`: every other property is kept as it was. */
  function WithName(d: JsValue): (r: JsValue)
    requires !Nullish(d)
    ensures r.Obj? && r.props.Keys == Spread(d).Keys + {"name"}
    ensures forall k :: k in Spread(d) && k != "name" ==> r.props[k] == Spread(d)[k]
    ensures r.props["name"] == DisplayName(d)
  {
    Obj(Spread(d)["name" := DisplayName(d)])
  }

  /** `rawData.map(...)`: reading `deviceName` off a `null` or `undefined`
      element throws a TypeError. */
  function MapNames(ds: seq<JsValue>): (r: Result<seq<JsValue>, string>)
    ensures r.Success? <==> forall i :: 0 <= i < |ds| ==> !Nullish(ds[i])
    ensures r.Success? ==> |r.value| == |ds|
    ensures r.Success? ==> forall i :: 0 <= i < |ds| ==> !Nullish(ds[i]) && r.value[i] == WithName(ds[i])
    ensures r.Failure? ==> r.error == TypeErrorMessage
    decreases |ds|
  {
    if |ds| == 0 then Success([])
    else if Nullish(ds[0]) then Failure(TypeErrorMessage)
    else
      match MapNames(ds[1..])
      case Failure(e) => Failure(e)
      case Success(rest) => Success([WithName(ds[0])] + rest)
  }

  /** The records of a delivered body: reading a property of a `null` or
      `undefined` body throws, a non-array source gives no records. */
  function Records(body: JsValue): (r: Result<seq<JsValue>, string>)
    ensures Nullish(body) ==> r == Failure(TypeErrorMessage)
    ensures !Nullish(body) && !RawData(body).Arr? ==> r == Success([])
    ensures !Nullish(body) && RawData(body).Arr? ==> r == MapNames(RawData(body).elems)
  {
    if Nullish(body) then Failure(TypeErrorMessage)
    else
      var raw := RawData(body);
      if raw.Arr? then MapNames(raw.elems) else Success([])
  }

  /** Every record that comes out has a truthy `name`, and the list is as
      long as the array it came from. */
  lemma RecordsNamed(body: JsValue)
    requires Records(body).Success?
    ensures forall i :: 0 <= i < |Records(body).value| ==>
              Records(body).value[i].Obj? && Truthy(Records(body).value[i].props["name"])
    ensures RawData(body).Arr? ==> |Records(body).value| == |RawData(body).elems|
  {
    var raw := RawData(body);
    if raw.Arr? {
      var rs := MapNames(raw.elems);
      forall i | 0 <= i < |rs.value|
        ensures rs.value[i].Obj? && Truthy(rs.value[i].props["name"])
      {
        assert rs.value[i] == WithName(raw.elems[i]);
      }
    }
  }

  // ----- Pagination -----

  /** The three response shapes, tried in order: top-level `totalCount`,
      a nested `pagination` object, a bare `totalRecords`; otherwise the
      pagination stays as it was. */
  function NormalisePagination(body: JsValue, q: Query, current: Pagination): (p: Pagination)
    ensures Get(body, "totalCount") != Undefined ==>
              && p.totalRecords == Get(body, "totalCount")
              && p.pageNumber == (if Truthy(Get(body, "pageNumber")) then Get(body, "pageNumber") else q.pageNumber)
              && p.pageSize == (if Truthy(Get(body, "pageSize")) then Get(body, "pageSize") else q.pageSize)
              && p.totalPages == (if Truthy(Get(body, "totalPages")) then Get(body, "totalPages") else Num(0))
    ensures Get(body, "totalCount") == Undefined && Truthy(Get(body, "pagination")) ==>
              var nested := Get(body, "pagination");
              p == Pagination(Get(nested, "currentPage"), Get(nested, "pageSize"),
                              Get(nested, "totalCount"), Get(nested, "totalPages"))
    ensures (Get(body, "totalCount") == Undefined && !Truthy(Get(body, "pagination"))
             && Truthy(Get(body, "totalRecords"))) ==>
              && p.pageNumber == q.pageNumber && p.pageSize == q.pageSize
              && p.totalRecords == Get(body, "totalRecords")
              && p.totalPages == CeilOfQuotient(Get(body, "totalRecords"), q.pageSize)
    ensures (Get(body, "totalCount") == Undefined && !Truthy(Get(body, "pagination"))
             && !Truthy(Get(body, "totalRecords"))) ==> p == current
  {
    var totalCount := Get(body, "totalCount");
    if totalCount != Undefined then
      Pagination(Or(Get(body, "pageNumber"), q.pageNumber),
                 Or(Get(body, "pageSize"), q.pageSize),
                 totalCount,
                 Or(Get(body, "totalPages"), Num(0)))
    else if Truthy(Get(body, "pagination")) then
      var nested := Get(body, "pagination");
      Pagination(Get(nested, "currentPage"), Get(nested, "pageSize"),
                 Get(nested, "totalCount"), Get(nested, "totalPages"))
    else if Truthy(Get(body, "totalRecords")) then
      var totalRecords := Get(body, "totalRecords");
      Pagination(q.pageNumber, q.pageSize, totalRecords, CeilOfQuotient(totalRecords, q.pageSize))
    else current
  }

  /** In the derived branch the page count is the least number of pages of
      the query's size that hold every record. */
  lemma DerivedPageCount(body: JsValue, q: Query, current: Pagination, total: int, size: int)
    requires Get(body, "totalCount") == Undefined && !Truthy(Get(body, "pagination"))
    requires Get(body, "totalRecords") == Num(total) && total > 0
    requires q.pageSize == Num(size) && size > 0
    ensures var p := NormalisePagination(body, q, current);
            && p.totalRecords == Num(total)
            && p.totalPages.Num?
            && (p.totalPages.n - 1) * size < total <= p.totalPages.n * size
            && p.totalPages.n >= 1
  {
    var p := NormalisePagination(body, q, current);
    assert p.totalPages == CeilOfQuotient(Num(total), Num(size));
    var k := p.totalPages.n;
    if k < 1 {
      MulMonotone(k, 0, size);
    }
  }

  /** A zero `totalRecords` is falsy, so a body with nothing else leaves the
      pagination untouched rather than resetting it to zero records. */
  lemma ZeroTotalRecordsKeepsPagination(q: Query, current: Pagination)
    ensures NormalisePagination(Obj(map["totalRecords" := Num(0)]), q, current) == current
  {
  }

  /** `totalCount: null` still wins the first branch: only `undefined` is
      skipped. */
  lemma NullTotalCountWins(q: Query, current: Pagination)
    ensures NormalisePagination(Obj(map["totalCount" := Null, "totalRecords" := Num(45)]), q, current).totalRecords == Null
  {
  }

  // ----- fetchCustomers -----

  /** The state while the request is in flight. */
  function BeginFetch(st: ListState): (r: ListState)
    ensures r.loading && r.error.None?
    ensures r.customers == st.customers && r.pagination == st.pagination
  {
    st.(loading := true, error := None)
  }

  /** `fetchCustomers(params)`: on success both the records and the
      pagination are replaced and the error is cleared; on any throw, from
      the request or from reading the body, only the error changes; either
      way loading ends. */
  function FetchCustomers(st: ListState, params: Params, reply: FetchReply): (r: ListState)
    ensures !r.loading
    ensures r.error.None? <==> reply.Delivered? && Records(reply.body).Success?
    ensures r.error.None? ==>
              && r.customers == Records(reply.body).value
              && r.pagination == NormalisePagination(reply.body, BuildQuery(params, st.pagination), st.pagination)
    ensures r.error.Some? ==> r.customers == st.customers && r.pagination == st.pagination && r.error.value != ""
    ensures reply.FetchFailed? ==>
              r.error == Some(if reply.message.Some? && reply.message.value != "" then reply.message.value
                              else "Error fetching customers")
  {
    var busy := BeginFetch(st);
    match reply
    case FetchFailed(message) =>
      busy.(error := Some(OrString(message, DefaultError)), loading := false)
    case Delivered(body) =>
      match Records(body)
      case Failure(e) => busy.(error := Some(e), loading := false)
      case Success(records) =>
        var q := BuildQuery(params, busy.pagination);
        busy.(customers := records, pagination := NormalisePagination(body, q, busy.pagination), loading := false)
  }

  /** Fetching the same reply again with the same arguments changes nothing:
      the query the second call builds from the new pagination leads back to
      the same pagination. */
  lemma FetchIdempotent(st: ListState, params: Params, reply: FetchReply)
    ensures var once := FetchCustomers(st, params, reply);
            FetchCustomers(once, params, reply) == once
  {
    var once := FetchCustomers(st, params, reply);
    if reply.Delivered? && Records(reply.body).Success? {
      var body := reply.body;
      var q1 := BuildQuery(params, once.pagination);
      assert NormalisePagination(body, q1, once.pagination) == once.pagination;
    }
  }

  /** A `{totalRecords: 45}` body on the first request gives page 1 of 20
      with three pages in all. */
  lemma FortyFiveRecordsScenario()
    ensures var r := FetchCustomers(InitialState(), NoParams, Delivered(Obj(map["totalRecords" := Num(45)])));
            && r.pagination == Pagination(Num(1), Num(20), Num(45), Num(3))
            && r.customers == [] && r.error.None? && !r.loading
  {
    var body := Obj(map["totalRecords" := Num(45)]);
    assert Get(body, "totalCount") == Undefined;
    assert CeilDiv(45, 20) == 3;
  }
}
