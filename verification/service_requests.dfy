/**
  Accessibility service requests: a table of requests keyed by `request_id`,
  each row carrying the pandas index label it has in the stored frame.
  Appending relabels the rows 0..n-1; deleting keeps the surviving labels,
  so a table that has seen a delete can have gaps in its labels.
 */
module ServiceRequests {
  import opened Common

  /** The accepted `request_type` values, after lower-casing. */
  const RequestTypes: seq<string> := ["ramp", "parking", "signage", "restroom", "other"]

  /** The accepted `priority` values, after lower-casing. */
  const Priorities: seq<string> := ["low", "medium", "high"]

  /** The accepted `status` values, after lower-casing. */
  const Statuses: seq<string> := ["pending", "in-progress", "completed", "rejected"]

  /** The priority of a request body that gives none. */
  const DefaultPriority: string := "medium"

  /** The status every new request starts in. */
  const InitialStatus: string := "pending"

  /** The body of a create request (`ServiceRequestCreate`); `priority` is None when absent. */
  datatype RequestInput = RequestInput(requestType: string, locationId: Option<string>,
                                       latitude: real, longitude: real, address: string,
                                       description: string, priority: Option<string>,
                                       requesterName: string, requesterEmail: Option<string>)

  datatype ServiceRequest = ServiceRequest(requestId: string, requestType: string, locationId: Option<string>,
                                           latitude: real, longitude: real, address: string,
                                           description: string, priority: string, status: string,
                                           requesterName: string, requesterEmail: Option<string>,
                                           createdAt: Instant, updatedAt: Instant)

  /** A row of the stored frame: its index label and the request it holds. */
  datatype Row = Row(index: nat, request: ServiceRequest)

  function PriorityOf(input: RequestInput): string
  {
    if input.priority.Some? then input.priority.value else DefaultPriority
  }

  /**
    The field a create request is refused for: the type is checked first,
    then the priority, both after lower-casing.
   */
  function Rejection(input: RequestInput): (r: Option<string>)
    ensures r.None? <==> Lower(input.requestType) in RequestTypes && Lower(PriorityOf(input)) in Priorities
    ensures r == Some("request_type") <==> Lower(input.requestType) !in RequestTypes
    ensures r == Some("priority") <==> Lower(input.requestType) in RequestTypes && Lower(PriorityOf(input)) !in Priorities
  {
    if Lower(input.requestType) !in RequestTypes then Some("request_type")
    else if Lower(PriorityOf(input)) !in Priorities then Some("priority")
    else None
  }

  /** The request a valid create stores: lower-cased type and priority, pending, both timestamps `now`. */
  function NewRequest(input: RequestInput, id: string, now: Instant): ServiceRequest
  {
    ServiceRequest(id, Lower(input.requestType), input.locationId, input.latitude, input.longitude,
                   input.address, input.description, Lower(PriorityOf(input)), InitialStatus,
                   input.requesterName, input.requesterEmail, now, now)
  }

  /** A request that passed validation is stored with an accepted type, priority and status. */
  lemma NewRequestAccepted(input: RequestInput, id: string, now: Instant)
    requires Rejection(input).None?
    ensures var r := NewRequest(input, id, now);
      && r.requestType in RequestTypes && r.priority in Priorities && r.status in Statuses
      && r.requestId == id && r.createdAt == r.updatedAt == now
      && (input.priority.None? ==> r.priority == DefaultPriority)
  {
  }

  function Requests(rows: seq<Row>): (reqs: seq<ServiceRequest>)
    ensures |reqs| == |rows|
    ensures forall i :: 0 <= i < |rows| ==> reqs[i] == rows[i].request
  {
    seq(|rows|, i requires 0 <= i < |rows| => rows[i].request)
  }

  /** `concat(..., ignore_index=True)`: the rows labelled 0..n-1 in order. */
  function Relabelled(reqs: seq<ServiceRequest>): (rows: seq<Row>)
    ensures |rows| == |reqs|
    ensures forall i :: 0 <= i < |reqs| ==> rows[i] == Row(i, reqs[i])
  {
    seq(|reqs|, i requires 0 <= i < |reqs| => Row(i, reqs[i]))
  }

  /** Labels grow strictly along the frame, so no two rows share one. */
  predicate LabelsIncreasing(rows: seq<Row>)
  {
    forall i, j :: 0 <= i < j < |rows| ==> rows[i].index < rows[j].index
  }

  /** Every row's label is its position: what `iloc` and `.at` agree on. */
  predicate Dense(rows: seq<Row>)
  {
    forall i :: 0 <= i < |rows| ==> rows[i].index == i
  }

  /** The position of the first row holding `id`. */
  function Find(rows: seq<Row>, id: string): (r: Option<nat>)
    ensures r.Some? ==> r.value < |rows| && rows[r.value].request.requestId == id
    ensures r.Some? ==> forall j :: 0 <= j < r.value ==> rows[j].request.requestId != id
    ensures r.None? <==> forall j :: 0 <= j < |rows| ==> rows[j].request.requestId != id
  {
    if rows == [] then None
    else if rows[0].request.requestId == id then Some(0)
    else match Find(rows[1..], id)
      case None => None
      case Some(k) => Some(k + 1)
  }

  /** The rows whose request id differs from `id`, labels kept (a boolean-mask selection). */
  function Without(rows: seq<Row>, id: string): seq<Row>
  {
    if rows == [] then []
    else
      var last := rows[|rows| - 1];
      Without(rows[..|rows| - 1], id) + (if last.request.requestId != id then [last] else [])
  }

  /** Deleting keeps exactly the other rows, each with its old label. */
  lemma {:induction false} WithoutMembers(rows: seq<Row>, id: string, x: Row)
    ensures x in Without(rows, id) <==> x in rows && x.request.requestId != id
  {
    if rows != [] {
      WithoutMembers(rows[..|rows| - 1], id, x);
      assert rows == rows[..|rows| - 1] + [rows[|rows| - 1]];
    }
  }

  /** Deleting keeps the labels increasing: the survivors keep their order. */
  lemma {:induction false} WithoutKeepsLabelsIncreasing(rows: seq<Row>, id: string)
    requires LabelsIncreasing(rows)
    ensures LabelsIncreasing(Without(rows, id))
    ensures forall x :: x in Without(rows, id) ==> x in rows
  {
    if rows != [] {
      var init := rows[..|rows| - 1];
      var last := rows[|rows| - 1];
      WithoutKeepsLabelsIncreasing(init, id);
      var w := Without(init, id);
      forall x | x in w ensures x.index < last.index {
        var k :| 0 <= k < |init| && init[k] == x;
        assert rows[k] == x;
      }
      forall x | x in Without(rows, id) ensures x in rows {
        if x != last { assert x in w; }
      }
    }
  }

  /** The rows after the status of the row at `p` is set; every other row, and every other field, is kept. */
  function WithStatus(rows: seq<Row>, p: nat, status: string, now: Instant): (out: seq<Row>)
    requires p < |rows|
    ensures |out| == |rows| && out[p].index == rows[p].index
    ensures out[p].request == rows[p].request.(status := Lower(status), updatedAt := now)
    ensures forall j :: 0 <= j < |rows| && j != p ==> out[j] == rows[j]
  {
    rows[p := rows[p].(request := rows[p].request.(status := Lower(status), updatedAt := now))]
  }

  /**
    The reply of `update_service_request_status` as written: `df.iloc[idx]`
    reads the row at POSITION `idx`, where `idx` is the index LABEL of the
    updated row; past the end the lookup raises (500).
   */
  function ReplyAsWritten(updated: seq<Row>, idx: nat): (r: Result<ServiceRequest>)
    ensures idx < |updated| ==> r == Ok(updated[idx].request)
    ensures idx >= |updated| ==> r == InternalError
  {
    if idx < |updated| then Ok(updated[idx].request) else InternalError
  }

  /** While the labels are dense (no delete yet) the reply as written is the updated request. */
  lemma ReplyAsWrittenWhenDense(rows: seq<Row>, p: nat, status: string, now: Instant)
    requires Dense(rows) && p < |rows|
    ensures ReplyAsWritten(WithStatus(rows, p, status, now), rows[p].index)
            == Ok(rows[p].request.(status := Lower(status), updatedAt := now))
  {
  }

  function Sample(id: string): ServiceRequest
  {
    ServiceRequest(id, "ramp", None, 0.0, 0.0, "", "", "medium", InitialStatus, "", None, 0, 0)
  }

  /**
    After three creates and the delete of the first, the rows are labelled 1
    and 2. Updating the first of them replies with the second request;
    updating the second raises after the change was saved.
   */
  lemma ReplyAsWrittenAfterDelete()
    ensures var rows := Without(Relabelled([Sample("x"), Sample("a"), Sample("b")]), "x");
      && rows == [Row(1, Sample("a")), Row(2, Sample("b"))]
      && ReplyAsWritten(WithStatus(rows, 0, "completed", 5), rows[0].index) == Ok(Sample("b"))
      && WithStatus(rows, 0, "completed", 5)[0].request != Sample("b")
      && ReplyAsWritten(WithStatus(rows, 1, "completed", 5), rows[1].index) == InternalError
  {
    var all := Relabelled([Sample("x"), Sample("a"), Sample("b")]);
    assert all == [Row(0, Sample("x")), Row(1, Sample("a")), Row(2, Sample("b"))];
    assert all[..1][..0] == [];
    assert Without(all[..1], "x") == [];
    assert all[..2][..1] == all[..1];
    assert Without(all[..2], "x") == [Row(1, Sample("a"))];
    assert all[..3][..2] == all[..2];
    assert all[..3] == all;
  }

  /** The stored frame of service requests. */
  class RequestTable {
    var rows: seq<Row>

    /** No two rows share a label, and labels follow the row order. */
    predicate Valid()
      reads this
    {
      LabelsIncreasing(rows)
    }

    constructor ()
      ensures rows == [] && Valid()
    {
      rows := [];
    }

    /** Appends one request and relabels every row by its position. */
    method Append(req: ServiceRequest)
      modifies this
      ensures rows == Relabelled(Requests(old(rows)) + [req])
      ensures Valid() && Dense(rows)
    {
      rows := Relabelled(Requests(rows) + [req]);
    }

    /**
      `create_service_request`: 400 naming the first invalid field, the table
      unchanged; otherwise the new pending request is appended and returned.
     */
    method Create(input: RequestInput, id: string, now: Instant) returns (res: Result<ServiceRequest>)
      modifies this
      ensures Rejection(input).Some? ==> res == BadRequest(Rejection(input).value) && rows == old(rows)
      ensures Rejection(input).None? ==>
        && res == Ok(NewRequest(input, id, now))
        && rows == Relabelled(Requests(old(rows)) + [NewRequest(input, id, now)])
      ensures old(Valid()) ==> Valid()
    {
      var refused := Rejection(input);
      if refused.Some? {
        return BadRequest(refused.value);
      }
      var req := NewRequest(input, id, now);
      Append(req);
      res := Ok(req);
    }

    /**
      `update_service_request_status` with the reply read from the updated
      row itself: 404 when no row has the id, then 400 for an unknown status;
      otherwise the first row with the id gets the lower-cased status and
      `updated_at = now`, and that row's request is the reply.
     */
    method UpdateStatus(id: string, status: string, now: Instant) returns (res: Result<ServiceRequest>)
      modifies this
      ensures Find(old(rows), id).None? ==> res == NotFound && rows == old(rows)
      ensures Find(old(rows), id).Some? && Lower(status) !in Statuses ==>
        res == BadRequest("status") && rows == old(rows)
      ensures Find(old(rows), id).Some? && Lower(status) in Statuses ==>
        var p := Find(old(rows), id).value;
        && rows == WithStatus(old(rows), p, status, now)
        && res == Ok(rows[p].request)
        && res.value.requestId == id && res.value.status == Lower(status)
      ensures old(Valid()) ==> Valid()
    {
      var p := Find(rows, id);
      if p.None? {
        return NotFound;
      }
      if Lower(status) !in Statuses {
        return BadRequest("status");
      }
      rows := WithStatus(rows, p.value, status, now);
      res := Ok(rows[p.value].request);
    }

    /** `delete_service_request`: 404 when no row has the id, else every row with it is removed. */
    method Delete(id: string) returns (res: Result<string>)
      modifies this
      ensures Find(old(rows), id).None? ==> res == NotFound && rows == old(rows)
      ensures Find(old(rows), id).Some? ==> res == Ok(id) && rows == Without(old(rows), id)
      ensures old(Valid()) ==> Valid()
    {
      if Find(rows, id).None? {
        return NotFound;
      }
      ghost var before := rows;
      rows := Without(rows, id);
      if LabelsIncreasing(before) {
        WithoutKeepsLabelsIncreasing(before, id);
      }
      res := Ok(id);
    }
  }

  /** The optional query filters of the list endpoint; an empty string filters nothing. */
  datatype Filters = Filters(status: Option<string>, requestType: Option<string>, priority: Option<string>)

  /** One optional filter: absent or empty passes everything, otherwise the lower-cased value must match. */
  predicate Passes(filter: Option<string>, value: string)
  {
    filter.None? || filter.value == "" || value == Lower(filter.value)
  }

  predicate Matches(r: ServiceRequest, f: Filters)
  {
    Passes(f.status, r.status) && Passes(f.requestType, r.requestType) && Passes(f.priority, r.priority)
  }

  /** The requests passing every filter, in stored order. */
  function Filtered(reqs: seq<ServiceRequest>, f: Filters): seq<ServiceRequest>
  {
    if reqs == [] then []
    else
      var last := reqs[|reqs| - 1];
      Filtered(reqs[..|reqs| - 1], f) + (if Matches(last, f) then [last] else [])
  }

  lemma {:induction false} FilteredMembers(reqs: seq<ServiceRequest>, f: Filters, x: ServiceRequest)
    ensures x in Filtered(reqs, f) <==> x in reqs && Matches(x, f)
  {
    if reqs != [] {
      FilteredMembers(reqs[..|reqs| - 1], f, x);
      assert reqs == reqs[..|reqs| - 1] + [reqs[|reqs| - 1]];
    }
  }

  lemma {:induction false} FilteredBounded(reqs: seq<ServiceRequest>, f: Filters)
    ensures |Filtered(reqs, f)| <= |reqs|
  {
    if reqs != [] {
      FilteredBounded(reqs[..|reqs| - 1], f);
    }
  }

  /** With no filter given every request is listed. */
  lemma {:induction false} NoFiltersListsAll(reqs: seq<ServiceRequest>)
    ensures Filtered(reqs, Filters(None, None, None)) == reqs
  {
    if reqs != [] {
      NoFiltersListsAll(reqs[..|reqs| - 1]);
      assert reqs == reqs[..|reqs| - 1] + [reqs[|reqs| - 1]];
    }
  }

  /** Filtering by the values a request was stored with selects it again: they are already lower-cased. */
  lemma StoredValuesSelectCreated(input: RequestInput, id: string, now: Instant)
    ensures var r := NewRequest(input, id, now);
      Matches(r, Filters(Some(r.status), Some(r.requestType), Some(r.priority)))
  {
    LowerIdempotent(input.requestType);
    LowerIdempotent(PriorityOf(input));
    assert Lower(InitialStatus) == InitialStatus by {
      assert forall i :: 0 <= i < |InitialStatus| ==> LowerChar(InitialStatus[i]) == InitialStatus[i];
    }
  }

  /** Filtering by the status an update stored selects the updated request. */
  lemma StoredStatusSelectsUpdated(rows: seq<Row>, p: nat, status: string, now: Instant)
    requires p < |rows|
    ensures var r := WithStatus(rows, p, status, now)[p].request;
      Passes(Some(r.status), r.status)
  {
    LowerIdempotent(status);
  }

  datatype RequestList = RequestList(total: nat, requests: seq<ServiceRequest>)

  /** `get_all_service_requests`: the matching requests in stored order, and their number. */
  method ListRequests(rows: seq<Row>, f: Filters) returns (resp: RequestList)
    ensures resp.requests == Filtered(Requests(rows), f)
    ensures resp.total == |resp.requests| <= |rows|
    ensures forall x :: x in resp.requests <==> x in Requests(rows) && Matches(x, f)
  {
    var reqs := Requests(rows);
    var out: seq<ServiceRequest> := [];
    for i := 0 to |reqs|
      invariant out == Filtered(reqs[..i], f)
    {
      assert reqs[..i + 1][..i] == reqs[..i];
      if Matches(reqs[i], f) {
        out := out + [reqs[i]];
      }
    }
    assert reqs[..|reqs|] == reqs;
    forall x ensures x in out <==> x in reqs && Matches(x, f) {
      FilteredMembers(reqs, f, x);
    }
    FilteredBounded(reqs, f);
    resp := RequestList(|out|, out);
  }

  /** `get_service_request`: the first request with that id, or 404. */
  function GetRequest(rows: seq<Row>, id: string): (r: Result<ServiceRequest>)
    ensures r.Ok? || r == NotFound
    ensures r == NotFound <==> forall j :: 0 <= j < |rows| ==> rows[j].request.requestId != id
    ensures r.Ok? ==> r.value.requestId == id && r.value in Requests(rows)
    ensures r.Ok? ==> exists k :: 0 <= k < |rows| && r.value == rows[k].request
                                 && forall j :: 0 <= j < k ==> rows[j].request.requestId != id
  {
    match Find(rows, id)
    case None => NotFound
    case Some(p) =>
      assert Requests(rows)[p] == rows[p].request;
      Ok(rows[p].request)
  }

  /** `value_counts().to_dict()`: each value that occurs, with its number of occurrences. */
  function ValueCounts(vs: seq<string>): (m: map<string, nat>)
    ensures m.Keys == set v | v in vs
    ensures forall v :: v in m ==> m[v] == multiset(vs)[v] && m[v] > 0
  {
    if vs == [] then map[]
    else
      var init := vs[..|vs| - 1];
      var last := vs[|vs| - 1];
      assert vs == init + [last];
      var m := ValueCounts(init);
      m[last := if last in m then m[last] + 1 else 1]
  }

  datatype RequestStats = RequestStats(total: nat, byStatus: map<string, nat>, byType: map<string, nat>,
                                       byPriority: map<string, nat>)

  /** One column of the frame. */
  function Column(rows: seq<Row>, field: ServiceRequest -> string): (c: seq<string>)
    ensures |c| == |rows|
    ensures forall i :: 0 <= i < |rows| ==> c[i] == field(rows[i].request)
  {
    seq(|rows|, i requires 0 <= i < |rows| => field(rows[i].request))
  }

  /** A count of each value of a column: exactly the values present, each with its number of rows. */
  ghost predicate CountsColumn(m: map<string, nat>, rows: seq<Row>, field: ServiceRequest -> string)
  {
    && (forall v :: v in m <==> exists i :: 0 <= i < |rows| && field(rows[i].request) == v)
    && (forall v :: v in m ==> m[v] == multiset(Column(rows, field))[v])
  }

  /** Counting a column yields exactly its values, each with its number of rows. */
  lemma ColumnCounts(rows: seq<Row>, field: ServiceRequest -> string)
    ensures CountsColumn(ValueCounts(Column(rows, field)), rows, field)
  {
    var c := Column(rows, field);
    forall v ensures v in c <==> exists i :: 0 <= i < |rows| && field(rows[i].request) == v {
      if v in c {
        var i :| 0 <= i < |c| && c[i] == v;
        assert field(rows[i].request) == v;
      }
      if exists i :: 0 <= i < |rows| && field(rows[i].request) == v {
        var i :| 0 <= i < |rows| && field(rows[i].request) == v;
        assert c[i] == v;
      }
    }
  }

  /**
    `get_stats`: the number of requests and, per status, type and priority,
    how many requests carry each value that occurs.
   */
  function Stats(rows: seq<Row>): (s: RequestStats)
    ensures s.total == |rows|
    ensures CountsColumn(s.byStatus, rows, (r: ServiceRequest) => r.status)
    ensures CountsColumn(s.byType, rows, (r: ServiceRequest) => r.requestType)
    ensures CountsColumn(s.byPriority, rows, (r: ServiceRequest) => r.priority)
  {
    ColumnCounts(rows, (r: ServiceRequest) => r.status);
    ColumnCounts(rows, (r: ServiceRequest) => r.requestType);
    ColumnCounts(rows, (r: ServiceRequest) => r.priority);
    RequestStats(|rows|, ValueCounts(Column(rows, (r: ServiceRequest) => r.status)), ValueCounts(Column(rows, (r: ServiceRequest) => r.requestType)),
                 ValueCounts(Column(rows, (r: ServiceRequest) => r.priority)))
  }

  /** The count a map gives a value: 0 for a value it does not hold. */
  function CountOf(m: map<string, nat>, v: string): nat
  {
    if v in m then m[v] else 0
  }

  /** The counts of a map summed over a list of values. */
  function CountsOver(m: map<string, nat>, ks: seq<string>): nat
  {
    if ks == [] then 0 else CountsOver(m, ks[..|ks| - 1]) + CountOf(m, ks[|ks| - 1])
  }

  predicate Distinct(ks: seq<string>)
  {
    forall i, j :: 0 <= i < j < |ks| ==> ks[i] != ks[j]
  }

  lemma {:induction false} CountsOverAgree(m1: map<string, nat>, m2: map<string, nat>, ks: seq<string>)
    requires forall i :: 0 <= i < |ks| ==> CountOf(m1, ks[i]) == CountOf(m2, ks[i])
    ensures CountsOver(m1, ks) == CountsOver(m2, ks)
  {
    if ks != [] {
      CountsOverAgree(m1, m2, ks[..|ks| - 1]);
    }
  }

  /** Adding one occurrence of a listed value adds one to the sum. */
  lemma {:induction false} CountsOverBump(m: map<string, nat>, x: string, ks: seq<string>)
    requires Distinct(ks) && x in ks
    ensures CountsOver(m[x := CountOf(m, x) + 1], ks) == CountsOver(m, ks) + 1
  {
    var init, k := ks[..|ks| - 1], ks[|ks| - 1];
    assert ks == init + [k];
    if k == x {
      CountsOverAgree(m[x := CountOf(m, x) + 1], m, init);
    } else {
      CountsOverBump(m, x, init);
    }
  }

  /** Summed over a duplicate-free list naming every value, the counts add up to the number of values. */
  lemma {:induction false} ValueCountsTotal(vs: seq<string>, ks: seq<string>)
    requires Distinct(ks)
    requires forall v :: v in vs ==> v in ks
    ensures CountsOver(ValueCounts(vs), ks) == |vs|
  {
    if vs == [] {
      CountsOverAgree(map[], ValueCounts(vs), ks);
      CountsOverNone(ks);
    } else {
      var init, last := vs[..|vs| - 1], vs[|vs| - 1];
      assert vs == init + [last];
      ValueCountsTotal(init, ks);
      CountsOverBump(ValueCounts(init), last, ks);
    }
  }

  lemma {:induction false} CountsOverNone(ks: seq<string>)
    ensures CountsOver(map[], ks) == 0
  {
    if ks != [] {
      CountsOverNone(ks[..|ks| - 1]);
    }
  }

  /**
    The three per-column counts of `get_stats` each add up to `total`, when
    summed over any duplicate-free list naming every value they count.
   */
  lemma StatsSumToTotal(rows: seq<Row>, ks: seq<string>)
    requires Distinct(ks)
    requires forall v :: v in Stats(rows).byStatus || v in Stats(rows).byType || v in Stats(rows).byPriority ==> v in ks
    ensures var s := Stats(rows);
      && CountsOver(s.byStatus, ks) == s.total
      && CountsOver(s.byType, ks) == s.total
      && CountsOver(s.byPriority, ks) == s.total
  {
    var status, kind, priority := Column(rows, (r: ServiceRequest) => r.status),
      Column(rows, (r: ServiceRequest) => r.requestType), Column(rows, (r: ServiceRequest) => r.priority);
    ValueCountsTotal(status, ks);
    ValueCountsTotal(kind, ks);
    ValueCountsTotal(priority, ks);
  }
}
