/**
  Public restrooms: a single TTL cache in front of the open-data endpoint, with
  a built-in fallback list, and the three read endpoints over its records.
 */
module Restrooms {
  import opened Common
  import Cache

  /** An upstream restroom record: a JSON object, so every field may be missing or of any type. */
  type Record = map<string, Value>

  /** `CACHE_TTL`: one hour, in microseconds. */
  const CacheTtl: int := 3_600_000_000

  /** The key under which the cache publishes itself in the registry. */
  const RegistryKey: string := "restrooms"

  function MockRecord(name: string, location: string, address: string, hours: string,
                      neighborhood: string, latitude: real, longitude: real): Record
  {
    map["name" := Str(name), "location" := Str(location), "address" := Str(address),
        "hours" := Str(hours), "neighborhood" := Str(neighborhood),
        "latitude" := Float(latitude), "longitude" := Float(longitude)]
  }

  /** `MOCK_RESTROOMS`: the fallback served whenever the fetch fails. */
  const MockRestrooms: seq<Record> := [
    MockRecord("Boston Public Library - Main Branch", "700 Boylston Street", "Boston, MA 02116",
               "Mon-Sat: 9AM-6PM, Sun: 1PM-5PM", "Back Bay", 42.3462, -71.0726),
    MockRecord("Downtown Boston Public Restroom", "Downtown Crossing", "Downtown, Boston, MA",
               "Daily: 7AM-10PM", "Downtown", 42.3554, -71.0606),
    MockRecord("Faneuil Hall Public Restroom", "100 Hanover Street", "Boston, MA 02109",
               "Daily: 10AM-9PM", "Downtown", 42.3631, -71.0551),
    MockRecord("Boston Common Public Restroom", "Boston Common", "Boston, MA 02108",
               "Daily: 8AM-6PM", "Downtown", 42.3565, -71.0657),
    MockRecord("Seaport District Public Restroom", "Seaport Boulevard", "Boston, MA 02210",
               "Daily: 9AM-9PM", "Seaport", 42.3618, -71.0432),
    MockRecord("Harvard Square Public Restroom", "Harvard Square", "Cambridge, MA 02138",
               "Daily: 7AM-11PM", "Cambridge", 42.3735, -71.1194),
    MockRecord("Back Bay Station Public Restroom", "145 Dartmouth Street", "Boston, MA 02116",
               "Daily: 6AM-10PM", "Back Bay", 42.3475, -71.0751),
    MockRecord("South Station Public Restroom", "700 Atlantic Avenue", "Boston, MA 02210",
               "Daily: 5AM-11PM", "Downtown", 42.3525, -71.0552)
  ]

  /**
    What the upstream request would produce if made now: a response with its
    status and the records found under `result.records` (an empty list when
    absent), or an exception (network error, timeout, undecodable body).
   */
  datatype FetchOutcome = Responded(status: int, records: seq<Record>) | Raised

  /** The records a miss stores and returns: the fetched ones on a 200, the mock list otherwise. */
  function MissRecords(fetch: FetchOutcome): seq<Record>
  {
    if fetch.Responded? && fetch.status == 200 then fetch.records else MockRestrooms
  }

  /** The cache dictionary `{"data": records, "timestamp": at}` as it is published. */
  function Snapshot(records: seq<Record>, at: Instant): Cache.Entry
  {
    map["data" := List(seq(|records|, i requires 0 <= i < |records| => Dict(records[i]))),
        "timestamp" := DateTime(at)]
  }

  /** The module-level `cache` dictionary. */
  class RestroomCache {
    var data: Option<seq<Record>>
    var timestamp: Option<Instant>

    constructor ()
      ensures data == None && timestamp == None
    {
      data := None;
      timestamp := None;
    }

    /** The cached records may be served at `now`: both set and younger than the TTL. */
    predicate IsHit(now: Instant)
      reads this
    {
      data.Some? && timestamp.Some? && now - timestamp.value < CacheTtl
    }

    /**
      `_get_cached_restrooms`. A hit returns the cached records and changes
      nothing. A miss stores the fetched records (200) or the mock list (any
      other status, any exception) stamped with `now`, publishes the cache in
      the registry and returns what it stored.
     */
    method Get(now: Instant, fetch: FetchOutcome, registry: Cache.Registry) returns (records: seq<Record>)
      modifies this, registry
      ensures old(IsHit(now)) ==>
        && records == old(data).value
        && data == old(data) && timestamp == old(timestamp)
        && registry.entries == old(registry.entries)
      ensures !old(IsHit(now)) ==>
        && records == MissRecords(fetch)
        && data == Some(records) && timestamp == Some(now)
        && registry.entries == old(registry.entries)[RegistryKey := Snapshot(records, now)]
    {
      if data.Some? && timestamp.Some? {
        var age := now - timestamp.value;
        if age < CacheTtl {
          return data.value;
        }
      }
      if fetch.Responded? && fetch.status == 200 {
        records := fetch.records;
      } else {
        records := MockRestrooms;
      }
      data := Some(records);
      timestamp := Some(now);
      registry.Register(RegistryKey, Snapshot(records, now));
    }
  }

  /**
    Two reads within the TTL window return the same records, the second one
    without fetching: after a miss the timestamp is `now`, so a failed fetch is
    not retried before the TTL elapses again.
   */
  method TwoReadsWithinTtl(c: RestroomCache, registry: Cache.Registry, now: Instant, later: Instant,
                           first: FetchOutcome, second: FetchOutcome)
    returns (a: seq<Record>, b: seq<Record>)
    requires now <= later < now + CacheTtl
    requires c.IsHit(now) ==> c.IsHit(later)
    modifies c, registry
    ensures a == b
    ensures !old(c.IsHit(now)) ==> a == MissRecords(first)
  {
    a := c.Get(now, first, registry);
    assert c.IsHit(later);
    b := c.Get(later, second, registry);
  }

  /** After a miss, the registry's summary of the restroom cache counts the stored records. */
  lemma PublishedSummary(entries: map<string, Cache.Entry>, records: seq<Record>, at: Instant, now: Instant)
    ensures var e := entries[RegistryKey := Snapshot(records, at)][RegistryKey];
      && Cache.DataCount(e) == |records|
      && !Cache.UnusableTimestamp(e)
      && Cache.AgeSeconds(e, now) == Some((now - at) as real / MicrosPerSecond as real)
  {
  }

  /** The `Restroom` response model: the seven fields read with `record.get`. */
  datatype Restroom = Restroom(name: Value, location: Value, address: Value, hours: Value,
                               neighborhood: Value, latitude: Value, longitude: Value)

  function ToRestroom(r: Record): Restroom
  {
    Restroom(GetOr(r, "name", Null), GetOr(r, "location", Null), GetOr(r, "address", Null),
             GetOr(r, "hours", Null), GetOr(r, "neighborhood", Null),
             GetOr(r, "latitude", Null), GetOr(r, "longitude", Null))
  }

  datatype RestroomsResponse = RestroomsResponse(total: nat, restrooms: seq<Restroom>)

  /** `get_public_restrooms` over the records the cache returned: one entry per record, in order. */
  method ListRestrooms(records: seq<Record>) returns (resp: RestroomsResponse)
    ensures resp.total == |records| == |resp.restrooms|
    ensures forall i :: 0 <= i < |records| ==> resp.restrooms[i] == ToRestroom(records[i])
  {
    var out: seq<Restroom> := [];
    for i := 0 to |records|
      invariant |out| == i
      invariant forall j :: 0 <= j < i ==> out[j] == ToRestroom(records[j])
    {
      out := out + [ToRestroom(records[i])];
    }
    resp := RestroomsResponse(|out|, out);
  }

  /**
    The lower-cased neighbourhood of a record (`record.get("neighborhood", "").lower()`),
    or None when the stored value is not a string and `.lower()` raises.
   */
  function NeighbourhoodKey(r: Record): Option<string>
  {
    match GetOr(r, "neighborhood", Str(""))
    case Str(s) => Some(Lower(s))
    case _ => None
  }

  /** The records of a neighbourhood, compared case-insensitively, in stored order. */
  function InNeighbourhood(records: seq<Record>, name: string): seq<Restroom>
  {
    if records == [] then []
    else
      var last := records[|records| - 1];
      InNeighbourhood(records[..|records| - 1], name)
        + (if NeighbourhoodKey(last) == Some(Lower(name)) then [ToRestroom(last)] else [])
  }

  /** Some record's neighbourhood is not a string. */
  predicate HasBadNeighbourhood(records: seq<Record>)
  {
    exists i :: 0 <= i < |records| && NeighbourhoodKey(records[i]).None?
  }

  lemma {:induction false} InNeighbourhoodMembers(records: seq<Record>, name: string, x: Restroom)
    ensures x in InNeighbourhood(records, name) <==>
      exists i :: 0 <= i < |records| && ToRestroom(records[i]) == x && NeighbourhoodKey(records[i]) == Some(Lower(name))
  {
    if records != [] {
      var init := records[..|records| - 1];
      InNeighbourhoodMembers(init, name, x);
      if x in InNeighbourhood(records, name) && x !in InNeighbourhood(init, name) {
        assert ToRestroom(records[|records| - 1]) == x;
      }
      if exists i :: 0 <= i < |records| && ToRestroom(records[i]) == x && NeighbourhoodKey(records[i]) == Some(Lower(name)) {
        var i :| 0 <= i < |records| && ToRestroom(records[i]) == x && NeighbourhoodKey(records[i]) == Some(Lower(name));
        if i < |records| - 1 {
          assert init[i] == records[i];
        }
      }
    }
  }

  /**
    `get_restrooms_by_neighborhood`: the matching records in stored order, or a
    500 as soon as some record's neighbourhood is not a string.
   */
  method ByNeighbourhood(records: seq<Record>, name: string) returns (resp: Result<RestroomsResponse>)
    ensures HasBadNeighbourhood(records) <==> resp == InternalError
    ensures resp.Ok? ==> resp.value.restrooms == InNeighbourhood(records, name)
                          && resp.value.total == |resp.value.restrooms|
  {
    var out: seq<Restroom> := [];
    var key := Lower(name);
    for i := 0 to |records|
      invariant out == InNeighbourhood(records[..i], name)
      invariant !HasBadNeighbourhood(records[..i])
    {
      assert records[..i + 1][..i] == records[..i];
      match GetOr(records[i], "neighborhood", Str("")) {
        case Str(s) =>
          if Lower(s) == key {
            out := out + [ToRestroom(records[i])];
          }
        case _ =>
          assert NeighbourhoodKey(records[i]).None?;
          return InternalError;
      }
      assert !HasBadNeighbourhood(records[..i + 1]) by {
        forall j | 0 <= j < i + 1 ensures NeighbourhoodKey(records[j]).Some? {
          if j < i { assert records[..i][j] == records[j]; }
        }
      }
    }
    assert records[..|records|] == records;
    resp := Ok(RestroomsResponse(|out|, out));
  }

  /**
    `float(record.get(key, 0))`: numbers and booleans convert, strings go
    through Python's float parser (a parameter here), anything else raises a
    TypeError and the record is skipped.
   */
  function Coordinate(r: Record, key: string, parse: string -> Option<real>): Option<real>
  {
    match GetOr(r, key, Int(0))
    case Int(i) => Some(i as real)
    case Float(x) => Some(x)
    case Bool(b) => Some(if b then 1.0 else 0.0)
    case Str(s) => parse(s)
    case _ => None
  }

  /** The record's position, when both coordinates convert. */
  function Position(r: Record, parse: string -> Option<real>): Option<Point>
  {
    var lat := Coordinate(r, "latitude", parse);
    var lon := Coordinate(r, "longitude", parse);
    if lat.Some? && lon.Some? then Some(Point(lat.value, lon.value)) else None
  }

  /** The response entry of a nearby record: its converted coordinates replace the stored ones. */
  function NearbyEntry(r: Record, p: Point): Restroom
  {
    ToRestroom(r).(latitude := Float(p.lat), longitude := Float(p.lon))
  }

  /** The records within `radius` miles of `center` (inclusive), in stored order. */
  function Nearby(records: seq<Record>, center: Point, radius: real, dist: Distance,
                  parse: string -> Option<real>): seq<Restroom>
  {
    if records == [] then []
    else
      var last := records[|records| - 1];
      var p := Position(last, parse);
      Nearby(records[..|records| - 1], center, radius, dist, parse)
        + (if p.Some? && dist(center, p.value) <= radius then [NearbyEntry(last, p.value)] else [])
  }

  lemma {:induction false} NearbyMembers(records: seq<Record>, center: Point, radius: real,
                                         dist: Distance, parse: string -> Option<real>, x: Restroom)
    ensures x in Nearby(records, center, radius, dist, parse) <==>
      exists i :: 0 <= i < |records| && Position(records[i], parse).Some?
        && dist(center, Position(records[i], parse).value) <= radius
        && x == NearbyEntry(records[i], Position(records[i], parse).value)
  {
    if records != [] {
      var init := records[..|records| - 1];
      NearbyMembers(init, center, radius, dist, parse, x);
      forall i | 0 <= i < |init| ensures init[i] == records[i] { }
      if x in Nearby(records, center, radius, dist, parse) && x !in Nearby(init, center, radius, dist, parse) {
        assert x == NearbyEntry(records[|records| - 1], Position(records[|records| - 1], parse).value);
      }
    }
  }

  /** A record whose coordinates do not convert is never in the nearby list. */
  lemma {:induction false} NearbyBounded(records: seq<Record>, center: Point, radius: real,
                                         dist: Distance, parse: string -> Option<real>)
    ensures |Nearby(records, center, radius, dist, parse)| <= |records|
  {
    if records != [] {
      NearbyBounded(records[..|records| - 1], center, radius, dist, parse);
    }
  }

  /** `get_nearby_restrooms`: the records within the radius, each with its converted coordinates. */
  method NearbyRestrooms(records: seq<Record>, center: Point, radius: real, dist: Distance,
                         parse: string -> Option<real>) returns (resp: RestroomsResponse)
    ensures resp.restrooms == Nearby(records, center, radius, dist, parse)
    ensures resp.total == |resp.restrooms| <= |records|
  {
    var out: seq<Restroom> := [];
    for i := 0 to |records|
      invariant out == Nearby(records[..i], center, radius, dist, parse)
    {
      assert records[..i + 1][..i] == records[..i];
      var lat := Coordinate(records[i], "latitude", parse);
      if lat.None? {
        continue;
      }
      var lon := Coordinate(records[i], "longitude", parse);
      if lon.None? {
        continue;
      }
      var miles := dist(center, Point(lat.value, lon.value));
      if miles <= radius {
        out := out + [NearbyEntry(records[i], Point(lat.value, lon.value))];
      }
    }
    assert records[..|records|] == records;
    NearbyBounded(records, center, radius, dist, parse);
    resp := RestroomsResponse(|out|, out);
  }
}
