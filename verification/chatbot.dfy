/**
  The four functions the chat model may call, and their dispatch by name
  through `FUNCTION_MAP`. The handlers work on the same tables as the HTTP
  endpoints but differ from them in small ways: no enum check on service
  requests, no `updated_at` on location upserts, and a search that falls back
  to every location when a coordinate is missing.
 */
module Chatbot {
  import opened Common
  import opened Reviews
  import opened ServiceRequests

  // ---------------------------------------------------------------------------
  // Arguments of a function call

  /**
    The `args` of a function call as the model hands them over: absent, a
    dict, something `dict()` converts (a mapping or a sequence of pairs, the
    later pair winning), or something it cannot convert, in which case the
    JSON parse of it is tried (None when that raises too).
   */
  datatype RawArgs =
    | ArgsNone
    | ArgsDict(entries: map<string, Value>)
    | ArgsPairs(pairs: seq<(string, Value)>)
    | ArgsUnconvertible(parsed: Option<Value>)

  /** `dict(pairs)`: every key of the sequence, bound to the value of its last pair. */
  function PairsToMap(pairs: seq<(string, Value)>): (m: map<string, Value>)
    ensures m.Keys == set p | p in pairs :: p.0
  {
    if pairs == [] then map[]
    else
      var last := pairs[|pairs| - 1];
      var init := pairs[..|pairs| - 1];
      assert pairs == init + [last];
      PairsToMap(init)[last.0 := last.1]
  }

  /** The later of two pairs with the same key wins. */
  lemma {:induction false} PairsLastWins(pairs: seq<(string, Value)>, i: nat)
    requires i < |pairs|
    requires forall j :: i < j < |pairs| ==> pairs[j].0 != pairs[i].0
    ensures pairs[i].0 in PairsToMap(pairs) && PairsToMap(pairs)[pairs[i].0] == pairs[i].1
  {
    if i < |pairs| - 1 {
      PairsLastWins(pairs[..|pairs| - 1], i);
    }
  }

  /** The arguments the handler is called with (`function_args`). */
  function Coerce(raw: RawArgs): (args: Value)
    ensures raw.ArgsNone? ==> args == Dict(map[])
    ensures raw.ArgsDict? ==> args == Dict(raw.entries)
    ensures raw.ArgsPairs? ==> args.Dict? && args.entries.Keys == set p | p in raw.pairs :: p.0
    ensures raw.ArgsUnconvertible? && raw.parsed.None? ==> args == Dict(map[])
    ensures raw.ArgsUnconvertible? && raw.parsed.Some? ==> args == raw.parsed.value
  {
    match raw
    case ArgsNone => Dict(map[])
    case ArgsDict(m) => Dict(m)
    case ArgsPairs(pairs) => Dict(PairsToMap(pairs))
    case ArgsUnconvertible(parsed) => if parsed.Some? then parsed.value else Dict(map[])
  }

  /** `f(**args)` binds: the arguments are a dict naming only parameters and every required one. */
  predicate Binds(args: Value, params: set<string>, required: set<string>)
  {
    args.Dict? && args.entries.Keys <= params && required <= args.entries.Keys
  }

  /** A `str` field of a request model. */
  function StrField(v: Value): Option<string>
  {
    if v.Str? then Some(v.s) else None
  }

  /** A `float` field of a request model: an int or a float. */
  function FloatField(v: Value): Option<real>
  {
    match v
    case Int(i) => Some(i as real)
    case Float(x) => Some(x)
    case _ => None
  }

  /** An `int` field of a request model: an int, or a float with no fractional part. */
  function IntField(v: Value): (r: Option<int>)
    ensures r.Some? ==> FloatField(v) == Some(r.value as real)
  {
    match v
    case Int(i) => Some(i)
    case Float(x) => if x == x.Floor as real then Some(x.Floor) else None
    case _ => None
  }

  /** An optional `str` field: None or a string. */
  function OptStrField(v: Value): Option<Option<string>>
  {
    match v
    case Null => Some(None)
    case Str(s) => Some(Some(s))
    case _ => None
  }

  /**
    `tags or []` validated as a `List[str]`: every falsy value (None, `""`, 0,
    False, `{}`, `[]`) gives `[]`; a non-empty list of strings is kept as is;
    anything else does not validate.
   */
  function TagsField(v: Value): (r: Option<seq<string>>)
    ensures !Truthy(v) ==> r == Some([])
    ensures r.Some? && Truthy(v) ==>
      v.List? && |r.value| == |v.items| && forall i :: 0 <= i < |v.items| ==> v.items[i] == Str(r.value[i])
    ensures v.List? && (forall i :: 0 <= i < |v.items| ==> v.items[i].Str?) ==> r.Some?
  {
    match v
    case List(items) => StrItems(items)
    case _ => if Truthy(v) then None else Some([])
  }

  /** A `List[str]` field: the strings of a list holding only strings. */
  function StrItems(items: seq<Value>): (r: Option<seq<string>>)
    ensures r.Some? <==> forall i :: 0 <= i < |items| ==> items[i].Str?
    ensures r.Some? ==> |r.value| == |items| && forall i :: 0 <= i < |items| ==> items[i] == Str(r.value[i])
  {
    if items == [] then Some([])
    else
      var last := items[|items| - 1];
      match StrItems(items[..|items| - 1])
      case None => None
      case Some(init) => if last.Str? then Some(init + [last.s]) else None
  }

  // ---------------------------------------------------------------------------
  // create_service_request_function

  const RequestParams: set<string> :=
    {"request_type", "latitude", "longitude", "address", "description", "requester_name", "priority", "requester_email"}
  const RequestRequired: set<string> :=
    {"request_type", "latitude", "longitude", "address", "description", "requester_name"}

  datatype RequestArgs = RequestArgs(requestType: string, latitude: real, longitude: real, address: string,
                                     description: string, requesterName: string, priority: string,
                                     requesterEmail: Option<string>)

  /** A `float` argument: an int or a float. */
  predicate IsNumber(v: Value)
  {
    v.Int? || v.Float?
  }

  /** The arguments of a bound call have the types `ServiceRequestCreate` accepts. */
  predicate RequestTyped(m: map<string, Value>)
    requires RequestRequired <= m.Keys
  {
    && m["request_type"].Str? && m["address"].Str? && m["description"].Str? && m["requester_name"].Str?
    && IsNumber(m["latitude"]) && IsNumber(m["longitude"])
    && ("priority" in m ==> m["priority"].Str?)
    && ("requester_email" in m ==> m["requester_email"].Null? || m["requester_email"].Str?)
  }

  /**
    Binding and model validation of the call: None when `**args` does not
    bind or a field does not validate (the call then raises). `priority`
    defaults to "medium" and `requester_email` to None.
   */
  function BindRequest(args: Value): (r: Option<RequestArgs>)
    ensures r.Some? <==> Binds(args, RequestParams, RequestRequired) && RequestTyped(args.entries)
    ensures r.Some? ==>
      var m := args.entries;
      && m["request_type"] == Str(r.value.requestType)
      && m["address"] == Str(r.value.address)
      && m["description"] == Str(r.value.description)
      && m["requester_name"] == Str(r.value.requesterName)
      && FloatField(m["latitude"]) == Some(r.value.latitude)
      && FloatField(m["longitude"]) == Some(r.value.longitude)
      && r.value.priority == (if "priority" in m then m["priority"].s else DefaultPriority)
      && r.value.requesterEmail == (if "requester_email" in m && m["requester_email"].Str?
                                    then Some(m["requester_email"].s) else None)
  {
    if !Binds(args, RequestParams, RequestRequired) then None
    else
      var m := args.entries;
      var kind, lat, lon := StrField(m["request_type"]), FloatField(m["latitude"]), FloatField(m["longitude"]);
      var address, description, name := StrField(m["address"]), StrField(m["description"]), StrField(m["requester_name"]);
      var priority := StrField(GetOr(m, "priority", Str(DefaultPriority)));
      var email := OptStrField(GetOr(m, "requester_email", Null));
      if kind.None? || lat.None? || lon.None? || address.None? || description.None? || name.None?
         || priority.None? || email.None? then None
      else Some(RequestArgs(kind.value, lat.value, lon.value, address.value, description.value, name.value,
                            priority.value, email.value))
  }

  /** The row the handler appends: lower-cased type and priority, no location id, pending. */
  function ChatRequest(a: RequestArgs, id: string, now: Instant): (r: ServiceRequest)
    ensures r.requestId == id && r.locationId == None && r.status == InitialStatus
    ensures r.requestType == Lower(a.requestType) && r.priority == Lower(a.priority)
    ensures r.createdAt == r.updatedAt == now
  {
    ServiceRequest(id, Lower(a.requestType), None, a.latitude, a.longitude, a.address, a.description,
                   Lower(a.priority), InitialStatus, a.requesterName, a.requesterEmail, now, now)
  }

  /**
    Unlike the HTTP endpoint, the handler stores a request type outside the
    five accepted ones: the endpoint refuses the same body.
   */
  lemma ChatSkipsTypeCheck(id: string, now: Instant)
    ensures var a := RequestArgs("Elevator", 0.0, 0.0, "", "", "", DefaultPriority, None);
      && ChatRequest(a, id, now).requestType !in RequestTypes
      && Rejection(RequestInput(a.requestType, None, 0.0, 0.0, "", "", None, "", None)) == Some("request_type")
  {
    assert Lower("Elevator") == "elevator";
  }

  /** What a handler returns; `success` is always true. */
  datatype HandlerResult =
    | Created(id: string)
    | Locations(locations: seq<SearchHit>, count: nat)
    | LocationReviews(reviews: seq<ReviewSummary>, count: nat)

  method CreateServiceRequestFn(table: RequestTable, a: RequestArgs, id: string, now: Instant)
    returns (res: HandlerResult)
    modifies table
    ensures table.rows == Relabelled(Requests(old(table.rows)) + [ChatRequest(a, id, now)])
    ensures res == Created(id)
  {
    table.Append(ChatRequest(a, id, now));
    res := Created(id);
  }

  // ---------------------------------------------------------------------------
  // create_review_function

  const ReviewParams: set<string> :=
    {"location_id", "latitude", "longitude", "title", "content", "rating", "author", "tags"}
  const ReviewRequired: set<string> :=
    {"location_id", "latitude", "longitude", "title", "content", "rating", "author"}

  datatype ReviewArgs = ReviewArgs(locationId: string, latitude: real, longitude: real, title: string,
                                   content: string, rating: int, author: string, tags: seq<string>)

  /** The arguments of a bound call have the types `ReviewCreate` accepts once `tags or []` is applied. */
  predicate ReviewTyped(m: map<string, Value>)
    requires ReviewRequired <= m.Keys
  {
    && m["location_id"].Str? && m["title"].Str? && m["content"].Str? && m["author"].Str?
    && IsNumber(m["latitude"]) && IsNumber(m["longitude"])
    && (m["rating"].Int? || (m["rating"].Float? && m["rating"].x == m["rating"].x.Floor as real))
    && ("tags" in m && Truthy(m["tags"]) ==>
          m["tags"].List? && forall i :: 0 <= i < |m["tags"].items| ==> m["tags"].items[i].Str?)
  }

  /** Binding and model validation of the call; `tags` defaults to `[]`. */
  function BindReview(args: Value): (r: Option<ReviewArgs>)
    ensures r.Some? <==> Binds(args, ReviewParams, ReviewRequired) && ReviewTyped(args.entries)
    ensures r.Some? ==>
      var m := args.entries;
      && m["location_id"] == Str(r.value.locationId)
      && m["title"] == Str(r.value.title)
      && m["content"] == Str(r.value.content)
      && m["author"] == Str(r.value.author)
      && FloatField(m["latitude"]) == Some(r.value.latitude)
      && FloatField(m["longitude"]) == Some(r.value.longitude)
      && FloatField(m["rating"]) == Some(r.value.rating as real)
      && (("tags" !in m || !Truthy(m["tags"])) ==> r.value.tags == [])
      && ("tags" in m && Truthy(m["tags"]) ==>
            |r.value.tags| == |m["tags"].items| && forall i :: 0 <= i < |r.value.tags| ==> m["tags"].items[i] == Str(r.value.tags[i]))
  {
    if !Binds(args, ReviewParams, ReviewRequired) then None
    else
      var m := args.entries;
      var lid, lat, lon := StrField(m["location_id"]), FloatField(m["latitude"]), FloatField(m["longitude"]);
      var title, content, author := StrField(m["title"]), StrField(m["content"]), StrField(m["author"]);
      var rating, tags := IntField(m["rating"]), TagsField(GetOr(m, "tags", Null));
      if lid.None? || lat.None? || lon.None? || title.None? || content.None? || author.None?
         || rating.None? || tags.None? then None
      else Some(ReviewArgs(lid.value, lat.value, lon.value, title.value, content.value, rating.value,
                           author.value, tags.value))
  }

  function ChatReview(a: ReviewArgs, id: string, now: Instant): Review
  {
    Review(id, a.locationId, a.latitude, a.longitude, a.title, a.content, a.rating, a.author, a.tags, now, now)
  }

  /**
    The chat upsert and the HTTP one build the same location table except
    for `updated_at`: the chat one leaves it unset on a new row and
    untouched on an existing one.
   */
  lemma ChatUpsertDiffersOnlyInStamp(locs: seq<Location>, rs: seq<Review>, r: Review, now: Instant)
    requires ReviewsAt(rs, r.locationId) != []
    ensures var chat, http := Upsert(locs, rs, r, now, false), Upsert(locs, rs, r, now, true);
      && |chat| == |http|
      && (forall j :: 0 <= j < |chat| ==> chat[j].(updatedAt := None) == http[j].(updatedAt := None))
      && (forall j :: 0 <= j < |locs| ==> chat[j].updatedAt == locs[j].updatedAt)
      && (|chat| > |locs| ==> chat[|locs|].updatedAt == None)
  {
  }

  method CreateReviewFn(store: ReviewStore, a: ReviewArgs, id: string, now: Instant) returns (res: HandlerResult)
    modifies store
    ensures store.reviews == old(store.reviews) + [ChatReview(a, id, now)]
    ensures ReviewsAt(store.reviews, a.locationId) != []
    ensures store.locations == Upsert(old(store.locations), store.reviews, ChatReview(a, id, now), now, false)
    ensures old(Consistent(store.reviews, store.locations))
            && (forall k :: 0 <= k < |old(store.reviews)| ==> old(store.reviews)[k].reviewId != id)
            ==> Consistent(store.reviews, store.locations)
    ensures res == Created(id)
  {
    store.Insert(ChatReview(a, id, now), now, false);
    res := Created(id);
  }

  // ---------------------------------------------------------------------------
  // search_locations_function

  /** The parameters as passed, unvalidated; absent ones take the defaults. */
  datatype SearchArgs = SearchArgs(latitude: Value, longitude: Value, radiusMiles: Value)

  const SearchParams: set<string> := {"latitude", "longitude", "radius_miles"}

  function BindSearch(args: Value): (r: Option<SearchArgs>)
    ensures r.Some? <==> Binds(args, SearchParams, {})
    ensures r.Some? ==>
      var m := args.entries;
      && r.value.latitude == (if "latitude" in m then m["latitude"] else Null)
      && r.value.longitude == (if "longitude" in m then m["longitude"] else Null)
      && r.value.radiusMiles == (if "radius_miles" in m then m["radius_miles"] else Float(5.0))
  {
    if !Binds(args, SearchParams, {}) then None
    else
      var m := args.entries;
      Some(SearchArgs(GetOr(m, "latitude", Null), GetOr(m, "longitude", Null), GetOr(m, "radius_miles", Float(5.0))))
  }

  /** A number Python arithmetic accepts: an int, a float or a bool. */
  function Numeric(v: Value): Option<real>
  {
    match v
    case Int(i) => Some(i as real)
    case Float(x) => Some(x)
    case Bool(b) => Some(if b then 1.0 else 0.0)
    case _ => None
  }

  datatype SearchHit = SearchHit(locationId: string, latitude: real, longitude: real, reviewCount: nat,
                                 averageRating: Option<real>, distanceMiles: Option<real>)

  /** The average is shown only when truthy: a mean of exactly 0 reads as None. */
  function ShownAverage(l: Location): (r: Option<real>)
    ensures r.None? <==> l.averageRating == 0.0
    ensures r.Some? ==> r.value == l.averageRating
  {
    if l.averageRating != 0.0 then Some(l.averageRating) else None
  }

  function Listed(l: Location): SearchHit
  {
    SearchHit(l.locationId, l.latitude, l.longitude, l.reviewCount, ShownAverage(l), None)
  }

  /** Every location, in stored order, without a distance. */
  function AllListed(locs: seq<Location>): (hits: seq<SearchHit>)
    ensures |hits| == |locs|
    ensures forall i :: 0 <= i < |locs| ==> hits[i] == Listed(locs[i])
  {
    if locs == [] then [] else AllListed(locs[..|locs| - 1]) + [Listed(locs[|locs| - 1])]
  }

  /** The locations within `radius` of `center` (inclusive), in stored order, with their distance. */
  function HitsWithin(locs: seq<Location>, center: Point, radius: real, dist: Distance): seq<SearchHit>
  {
    if locs == [] then []
    else
      var l := locs[|locs| - 1];
      var miles := dist(center, Point(l.latitude, l.longitude));
      HitsWithin(locs[..|locs| - 1], center, radius, dist)
        + (if miles <= radius
           then [SearchHit(l.locationId, l.latitude, l.longitude, l.reviewCount, ShownAverage(l), Some(miles))]
           else [])
  }

  /** A hit is exactly a location within the radius, shown with its distance. */
  lemma {:induction false} HitsWithinMembers(locs: seq<Location>, center: Point, radius: real, dist: Distance,
                                             h: SearchHit)
    ensures h in HitsWithin(locs, center, radius, dist) <==>
      exists l :: l in locs && dist(center, Point(l.latitude, l.longitude)) <= radius
        && h == SearchHit(l.locationId, l.latitude, l.longitude, l.reviewCount, ShownAverage(l),
                          Some(dist(center, Point(l.latitude, l.longitude))))
  {
    if locs != [] {
      var init := locs[..|locs| - 1];
      HitsWithinMembers(init, center, radius, dist, h);
      assert locs == init + [locs[|locs| - 1]];
    }
  }

  lemma {:induction false} HitsWithinBounded(locs: seq<Location>, center: Point, radius: real, dist: Distance)
    ensures |HitsWithin(locs, center, radius, dist)| <= |locs|
  {
    if locs != [] {
      HitsWithinBounded(locs[..|locs| - 1], center, radius, dist);
    }
  }

  /** A radius search happens only when both coordinates are given (not None). */
  predicate HasCentre(a: SearchArgs)
  {
    a.latitude != Null && a.longitude != Null
  }

  /**
    What the search returns: nothing found on an empty table; every location
    when a coordinate is missing; otherwise the locations within the radius,
    or None (the call raises) when the centre or radius is not a number.
   */
  function Search(locs: seq<Location>, a: SearchArgs, dist: Distance): (r: Option<HandlerResult>)
    ensures r.Some? ==> r.value.Locations? && r.value.count == |r.value.locations| <= |locs|
    ensures locs == [] ==> r == Some(Locations([], 0))
    ensures locs != [] && !HasCentre(a) ==> r == Some(Locations(AllListed(locs), |locs|))
    ensures r.None? <==>
      locs != [] && HasCentre(a)
      && (Numeric(a.latitude).None? || Numeric(a.longitude).None? || Numeric(a.radiusMiles).None?)
    ensures locs != [] && HasCentre(a) && r.Some? ==>
      var hits := HitsWithin(locs, Point(Numeric(a.latitude).value, Numeric(a.longitude).value),
                             Numeric(a.radiusMiles).value, dist);
      r.value == Locations(hits, |hits|)
  {
    if locs == [] then Some(Locations([], 0))
    else if HasCentre(a) then
      var lat, lon, radius := Numeric(a.latitude), Numeric(a.longitude), Numeric(a.radiusMiles);
      if lat.None? || lon.None? || radius.None? then None
      else
        var hits := HitsWithin(locs, Point(lat.value, lon.value), radius.value, dist);
        HitsWithinBounded(locs, Point(lat.value, lon.value), radius.value, dist);
        Some(Locations(hits, |hits|))
    else Some(Locations(AllListed(locs), |locs|))
  }

  /** `search_locations_function`; None when it raises. */
  method SearchLocationsFn(locs: seq<Location>, a: SearchArgs, dist: Distance) returns (r: Option<HandlerResult>)
    ensures r == Search(locs, a, dist)
  {
    if locs == [] {
      return Some(Locations([], 0));
    }
    if HasCentre(a) {
      var lat, lon, radius := Numeric(a.latitude), Numeric(a.longitude), Numeric(a.radiusMiles);
      if lat.None? || lon.None? || radius.None? {
        return None;
      }
      var center := Point(lat.value, lon.value);
      var nearby: seq<SearchHit> := [];
      for i := 0 to |locs|
        invariant nearby == HitsWithin(locs[..i], center, radius.value, dist)
      {
        assert locs[..i + 1][..i] == locs[..i];
        var l := locs[i];
        var miles := dist(center, Point(l.latitude, l.longitude));
        if miles <= radius.value {
          nearby := nearby + [SearchHit(l.locationId, l.latitude, l.longitude, l.reviewCount, ShownAverage(l),
                                        Some(miles))];
        }
      }
      assert locs[..|locs|] == locs;
      r := Some(Locations(nearby, |nearby|));
    } else {
      var all: seq<SearchHit> := [];
      for i := 0 to |locs|
        invariant all == AllListed(locs[..i])
      {
        assert locs[..i + 1][..i] == locs[..i];
        all := all + [Listed(locs[i])];
      }
      assert locs[..|locs|] == locs;
      r := Some(Locations(all, |all|));
    }
  }

  // ---------------------------------------------------------------------------
  // get_location_reviews_function

  datatype ReviewSummary = ReviewSummary(reviewId: string, title: string, content: string, rating: int,
                                         author: string, tags: seq<string>, createdAt: Instant)

  function Summary(r: Review): ReviewSummary
  {
    ReviewSummary(r.reviewId, r.title, r.content, r.rating, r.author, r.tags, r.createdAt)
  }

  function Summaries(rs: seq<Review>): (out: seq<ReviewSummary>)
    ensures |out| == |rs|
    ensures forall i :: 0 <= i < |rs| ==> out[i] == Summary(rs[i])
  {
    if rs == [] then [] else Summaries(rs[..|rs| - 1]) + [Summary(rs[|rs| - 1])]
  }

  lemma SummariesConcat(a: seq<Review>, b: seq<Review>)
    ensures Summaries(a + b) == Summaries(a) + Summaries(b)
  {
    assert forall i :: 0 <= i < |a + b| ==> (a + b)[i] == if i < |a| then a[i] else b[i - |a|];
  }

  /** The reviews a location id selects: a string compares with each row's id, anything else matches none. */
  function SelectedReviews(rs: seq<Review>, locationId: Value): seq<Review>
  {
    if locationId.Str? then ReviewsAt(rs, locationId.s) else []
  }

  const LocationReviewsParams: set<string> := {"location_id"}

  /** `get_location_reviews_function`: a summary of each review at the location, in stored order. */
  method GetLocationReviewsFn(rs: seq<Review>, locationId: Value) returns (res: HandlerResult)
    ensures res == LocationReviews(Summaries(SelectedReviews(rs, locationId)),
                                   |SelectedReviews(rs, locationId)|)
    ensures res.count == |res.reviews|
    ensures locationId.Str? ==> forall x :: x in SelectedReviews(rs, locationId) <==> x in rs && x.locationId == locationId.s
  {
    if !locationId.Str? {
      return LocationReviews([], 0);
    }
    var lid := locationId.s;
    var found: seq<ReviewSummary> := [];
    ghost var selected: seq<Review> := [];
    for i := 0 to |rs|
      invariant selected == ReviewsAt(rs[..i], lid)
      invariant found == Summaries(selected)
    {
      assert rs[..i + 1][..i] == rs[..i];
      if rs[i].locationId == lid {
        SummariesConcat(selected, [rs[i]]);
        selected := selected + [rs[i]];
        found := found + [Summary(rs[i])];
      }
    }
    assert rs[..|rs|] == rs;
    forall x ensures x in selected <==> x in rs && x.locationId == lid {
      ReviewsAtMembers(rs, lid, x);
    }
    res := LocationReviews(found, |found|);
  }

  // ---------------------------------------------------------------------------
  // FUNCTION_MAP dispatch

  datatype Handler = CreateServiceRequest | CreateReview | SearchLocations | GetLocationReviews

  /** `FUNCTION_MAP`: the callable function names. */
  const FunctionMap: map<string, Handler> := map[
    "create_service_request" := CreateServiceRequest,
    "create_review" := CreateReview,
    "search_locations" := SearchLocations,
    "get_location_reviews" := GetLocationReviews
  ]

  /**
    The outcome of one function-call part: no handler for the name (and no
    `function_call_result`), the handler's result with the arguments it was
    called with, or a diagnostic when the call raised.
   */
  datatype CallOutcome = NoHandler | Handled(name: string, arguments: Value, result: HandlerResult) | Diagnostic(name: string)

  /** Whether the call for `name` with these arguments raises before it changes anything. */
  function Raises(name: string, args: Value, locs: seq<Location>, dist: Distance): bool
    requires name in FunctionMap
  {
    match FunctionMap[name]
    case CreateServiceRequest => BindRequest(args).None?
    case CreateReview => BindReview(args).None?
    case SearchLocations => BindSearch(args).None? || Search(locs, BindSearch(args).value, dist).None?
    case GetLocationReviews => !Binds(args, LocationReviewsParams, LocationReviewsParams)
  }

  /**
    One function call: look the name up in `FUNCTION_MAP`, coerce the
    arguments, bind and run the handler. `freshId` is the id a create uses.
   */
  method Dispatch(name: string, raw: RawArgs, freshId: string, now: Instant,
                  table: RequestTable, store: ReviewStore, dist: Distance) returns (outcome: CallOutcome)
    modifies table, store
    ensures name !in FunctionMap ==> outcome == NoHandler
    ensures name in FunctionMap && !Raises(name, Coerce(raw), old(store.locations), dist) ==> outcome.Handled?
    ensures name in FunctionMap && Raises(name, Coerce(raw), old(store.locations), dist) ==> outcome == Diagnostic(name)
    ensures outcome.NoHandler? || outcome.Diagnostic? ==>
      table.rows == old(table.rows) && store.reviews == old(store.reviews) && store.locations == old(store.locations)
    ensures outcome.Handled? ==> name in FunctionMap && outcome.name == name && outcome.arguments == Coerce(raw)
    ensures outcome.Handled? && FunctionMap[name] == CreateServiceRequest ==>
      && outcome.result == Created(freshId)
      && table.rows == Relabelled(Requests(old(table.rows)) + [ChatRequest(BindRequest(Coerce(raw)).value, freshId, now)])
      && store.reviews == old(store.reviews) && store.locations == old(store.locations)
    ensures outcome.Handled? && FunctionMap[name] == CreateReview ==>
      var r := ChatReview(BindReview(Coerce(raw)).value, freshId, now);
      && outcome.result == Created(freshId)
      && table.rows == old(table.rows)
      && store.reviews == old(store.reviews) + [r]
      && ReviewsAt(store.reviews, r.locationId) != []
      && store.locations == Upsert(old(store.locations), store.reviews, r, now, false)
    ensures outcome.Handled? && FunctionMap[name] == SearchLocations ==>
      && Search(store.locations, BindSearch(Coerce(raw)).value, dist) == Some(outcome.result)
      && table.rows == old(table.rows) && store.reviews == old(store.reviews) && store.locations == old(store.locations)
    ensures outcome.Handled? && FunctionMap[name] == GetLocationReviews ==>
      var selected := SelectedReviews(store.reviews, Coerce(raw).entries["location_id"]);
      && outcome.result == LocationReviews(Summaries(selected), |selected|)
      && table.rows == old(table.rows) && store.reviews == old(store.reviews) && store.locations == old(store.locations)
    ensures old(Consistent(store.reviews, store.locations))
            && (forall k :: 0 <= k < |old(store.reviews)| ==> old(store.reviews)[k].reviewId != freshId)
            ==> Consistent(store.reviews, store.locations)
  {
    if name !in FunctionMap {
      return NoHandler;
    }
    var args := Coerce(raw);
    match FunctionMap[name] {
      case CreateServiceRequest =>
        var bound := BindRequest(args);
        if bound.None? {
          return Diagnostic(name);
        }
        var result := CreateServiceRequestFn(table, bound.value, freshId, now);
        outcome := Handled(name, args, result);
      case CreateReview =>
        var bound := BindReview(args);
        if bound.None? {
          return Diagnostic(name);
        }
        var result := CreateReviewFn(store, bound.value, freshId, now);
        outcome := Handled(name, args, result);
      case SearchLocations =>
        var bound := BindSearch(args);
        if bound.None? {
          return Diagnostic(name);
        }
        var result := SearchLocationsFn(store.locations, bound.value, dist);
        if result.None? {
          return Diagnostic(name);
        }
        outcome := Handled(name, args, result.value);
      case GetLocationReviews =>
        if !Binds(args, LocationReviewsParams, LocationReviewsParams) {
          return Diagnostic(name);
        }
        var result := GetLocationReviewsFn(store.reviews, args.entries["location_id"]);
        outcome := Handled(name, args, result);
    }
  }
}
