/**
  JSON documents as values. Parsing and printing text are not part of this
  model: a body carries the document it parses to, and a request carries the
  document `json.Marshal` would produce.
 */
module Json {
  import opened Wrappers

  datatype Json =
    | JNull
    | JBool(b: bool)
    // A number written without fraction or exponent.
    | JInt(i: int)
    // A number written with a fraction or an exponent, kept as its text.
    | JDecimal(text: string)
    | JString(s: string)
    | JArray(items: seq<Json>)
    | JObject(fields: map<string, Json>)
    // A `time.Time`, which encoding/json writes as RFC 3339 text; only the
    // instant (nanoseconds after Go's zero time) is kept.
    | JTime(instant: int)

  const MinInt64: int := -0x8000_0000_0000_0000
  const MaxInt64: int := 0x7fff_ffff_ffff_ffff

  /**
    `json.Unmarshal(b, &id)` for a Go `int` (64 bits) that starts at zero:
    an integer literal in range is stored, `null` leaves the zero in place,
    anything else is an error.
   */
  function DecodeInt(j: Json): (r: Option<int>)
    ensures r.Some? ==> MinInt64 <= r.value <= MaxInt64
    ensures r.Some? <==> j.JNull? || (j.JInt? && MinInt64 <= j.i <= MaxInt64)
    ensures j.JNull? ==> r == Some(0)
    ensures j.JInt? && r.Some? ==> r.value == j.i
  {
    match j
    case JNull => Some(0)
    case JInt(i) => if MinInt64 <= i <= MaxInt64 then Some(i) else None
    case _ => None
  }

  /** The member `key` of an object, or `null` when it is missing. */
  function Member(fields: map<string, Json>, key: string): (r: Json)
    ensures key !in fields ==> r == JNull
    ensures key in fields ==> r == fields[key]
  {
    if key in fields then fields[key] else JNull
  }
}
