/**
  Shared vocabulary of the stores: instants, endpoint outcomes, the Python values
  held in the dictionaries the handlers pass around, ASCII lower-casing and points
  for the radius searches.
 */
module Common {

  /** A point in time, counted in microseconds (the resolution of Python's datetime). */
  type Instant = int

  /** Microseconds in one second, for ages reported in seconds. */
  const MicrosPerSecond: int := 1_000_000

  datatype Option<T> = None | Some(value: T)

  /**
    What an endpoint hands back: its value, or the HTTP error it raises
    (404 not found, 400 bad request naming the offending field, 500 for any
    other exception).
   */
  datatype Result<T> = Ok(value: T) | NotFound | BadRequest(field: string) | InternalError

  /**
    A Python value as it can appear in the dictionaries of the registry, the
    restroom records and the model's function-call arguments. `DateTime` is a
    `datetime` object; everything else is what JSON decoding produces.
   */
  datatype Value =
    | Null
    | Bool(b: bool)
    | Int(i: int)
    | Float(x: real)
    | Str(s: string)
    | List(items: seq<Value>)
    | Dict(entries: map<string, Value>)
    | DateTime(t: Instant)

  /** Python truthiness (`if v:`). */
  predicate Truthy(v: Value)
  {
    match v
    case Null => false
    case Bool(b) => b
    case Int(i) => i != 0
    case Float(x) => x != 0.0
    case Str(s) => s != ""
    case List(items) => items != []
    case Dict(entries) => entries != map[]
    case DateTime(_) => true
  }

  /** `d.get(key, default)` on a dictionary. */
  function GetOr(d: map<string, Value>, key: string, default: Value): Value
  {
    if key in d then d[key] else default
  }

  function LowerChar(c: char): char
  {
    if 'A' <= c <= 'Z' then (c as int + 32) as char else c
  }

  /** `str.lower()` restricted to ASCII letters. */
  function Lower(s: string): (r: string)
    ensures |r| == |s|
    ensures forall i :: 0 <= i < |s| ==> r[i] == LowerChar(s[i])
  {
    seq(|s|, i requires 0 <= i < |s| => LowerChar(s[i]))
  }

  /** Lower-casing twice is lower-casing once. */
  lemma LowerIdempotent(s: string)
    ensures Lower(Lower(s)) == Lower(s)
  {
    assert forall i :: 0 <= i < |s| ==> LowerChar(LowerChar(s[i])) == LowerChar(s[i]);
  }

  /** A latitude/longitude pair in degrees. */
  datatype Point = Point(lat: real, lon: real)

  /**
    Great-circle distance in miles from a search centre to a point. The
    haversine formula is not modelled: every radius search takes the distance
    as a parameter.
   */
  type Distance = (Point, Point) -> real
}
