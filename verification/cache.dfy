/**
  The process-wide cache registry: a dictionary from a cache key to the most
  recently published cache dictionary, plus the summary derived from it.
 */
module Cache {
  import opened Common

  /** A registered cache dictionary (for the restroom cache: `data` and `timestamp`). */
  type Entry = map<string, Value>

  class Registry {
    /** `_cache_registry`: key to the last cache dictionary registered under it. */
    var entries: map<string, Entry>

    constructor ()
      ensures entries == map[]
    {
      entries := map[];
    }

    /** `register_cache`: last write wins; every other key keeps its entry. */
    method Register(key: string, entry: Entry)
      modifies this
      ensures entries == old(entries)[key := entry]
      ensures key in entries && entries[key] == entry
      ensures forall k :: k in old(entries) && k != key ==> k in entries && entries[k] == old(entries)[k]
      ensures entries.Keys == old(entries).Keys + {key}
    {
      entries := entries[key := entry];
    }

    /** `get_all_caches`: a copy equal to the registry; the registry is not touched. */
    method All() returns (copy: map<string, Entry>)
      ensures copy == entries
    {
      copy := entries;
    }
  }

  /** One row of the summary (`CacheInfo`). */
  datatype CacheInfo = CacheInfo(key: string, timestamp: Value, dataCount: nat, ageSeconds: Option<real>)

  /** `data_count`: the length of `data` when it is a list or a dict, 0 otherwise. */
  function DataCount(entry: Entry): (n: nat)
    ensures GetOr(entry, "data", Null).List? ==> n == |GetOr(entry, "data", Null).items|
    ensures GetOr(entry, "data", Null).Dict? ==> n == |GetOr(entry, "data", Null).entries|
    ensures !GetOr(entry, "data", Null).List? && !GetOr(entry, "data", Null).Dict? ==> n == 0
  {
    match GetOr(entry, "data", Null)
    case List(items) => |items|
    case Dict(d) => |d|
    case _ => 0
  }

  /**
    A timestamp the summary cannot subtract from `now`: it is truthy, so the
    age is computed, but it is not a datetime, so the subtraction raises.
   */
  predicate UnusableTimestamp(entry: Entry)
  {
    var ts := GetOr(entry, "timestamp", Null);
    Truthy(ts) && !ts.DateTime?
  }

  /** The age in seconds, or None when the timestamp is falsy (None, missing, empty). */
  function AgeSeconds(entry: Entry, now: Instant): (age: Option<real>)
    requires !UnusableTimestamp(entry)
    ensures Truthy(GetOr(entry, "timestamp", Null)) ==>
      var t := GetOr(entry, "timestamp", Null).t;
      age == Some((now - t) as real / MicrosPerSecond as real) && (t <= now ==> age.value >= 0.0)
  {
    var ts := GetOr(entry, "timestamp", Null);
    if Truthy(ts) then Some((now - ts.t) as real / MicrosPerSecond as real) else None
  }

  function Info(key: string, entry: Entry, now: Instant): CacheInfo
    requires !UnusableTimestamp(entry)
  {
    CacheInfo(key, GetOr(entry, "timestamp", Null), DataCount(entry), AgeSeconds(entry, now))
  }

  /**
    `get_cache_summary`: one `CacheInfo` per registered key, or a 500 when some
    entry carries a timestamp that cannot be subtracted from `now`.
   */
  function Summary(entries: map<string, Entry>, now: Instant): (r: Result<map<string, CacheInfo>>)
    ensures r.Ok? || r == InternalError
    ensures r == InternalError <==> exists k :: k in entries && UnusableTimestamp(entries[k])
    ensures r.Ok? ==> r.value.Keys == entries.Keys
    ensures r.Ok? ==> forall k :: k in entries ==>
      && r.value[k].key == k
      && r.value[k].dataCount == DataCount(entries[k])
      && r.value[k].timestamp == GetOr(entries[k], "timestamp", Null)
      && (r.value[k].ageSeconds.None? <==> !Truthy(GetOr(entries[k], "timestamp", Null)))
      && r.value[k].ageSeconds == AgeSeconds(entries[k], now)
  {
    if exists k :: k in entries && UnusableTimestamp(entries[k]) then InternalError
    else Ok(map k | k in entries :: Info(k, entries[k], now))
  }

  /** The summary endpoint reports one cache per registered key. */
  lemma SummaryCountsCaches(entries: map<string, Entry>, now: Instant)
    requires Summary(entries, now).Ok?
    ensures |Summary(entries, now).value| == |entries|
  {
    assert Summary(entries, now).value.Keys == entries.Keys;
  }

  /** `get_cache_by_key`: the registered dictionary, or 404 for an unknown key. */
  function CacheByKey(entries: map<string, Entry>, key: string): (r: Result<Entry>)
    ensures key !in entries <==> r == NotFound
    ensures key in entries ==> r == Ok(entries[key])
  {
    if key in entries then Ok(entries[key]) else NotFound
  }
}
