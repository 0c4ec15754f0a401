/**
 * JSON as the client sees it through Go's `encoding/json`: values, request
 * bodies abstracted by what the decoder makes of their bytes, and HTTP
 * responses carrying both the raw body text and its decoding.
 */
module Json {
  import opened Wrappers

  /** A JSON value; numbers are kept as exact integers. */
  datatype Json =
    | Null
    | Bool(b: bool)
    | Number(n: int)
    | Str(s: string)
    | Array(items: seq<Json>)
    | Object(fields: map<string, Json>)

  /**
   * A byte slice handed to the JSON decoder, abstracted by what the decoder
   * finds in it: no bytes at all, bytes that are not valid JSON, or the text
   * of one JSON document.
   */
  datatype Body = Empty | Malformed | Document(value: Json)

  /** A response from the transport: status code, body text, and the first JSON value a decoder reads from the body (None when there is none or it is malformed). */
  datatype HttpResponse = HttpResponse(status: int, text: string, decoded: Option<Json>)

  // ---- decoding into Go structs ----

  /** Go's int range: a JSON number outside it does not fit an `int` field. */
  const MinInt64: int := -0x8000_0000_0000_0000
  const MaxInt64: int := 0x7FFF_FFFF_FFFF_FFFF

  /**
   * The fields a decoded value offers to a struct: an object its members,
   * `null` none (every field stays zero); any other value is a type error.
   */
  function StructFields(j: Json): (r: Option<map<string, Json>>)
    ensures r.Some? <==> j.Object? || j.Null?
    ensures j.Object? ==> r == Some(j.fields)
    ensures j.Null? ==> r == Some(map[])
  {
    match j
    case Object(fields) => Some(fields)
    case Null => Some(map[])
    case _ => None
  }

  /** A string field: absent or `null` leaves "", a string is taken, anything else is a type error. */
  function StringField(fields: map<string, Json>, key: string): (r: Option<string>)
    ensures key in fields && fields[key].Str? ==> r == Some(fields[key].s)
    ensures key !in fields ==> r == Some("")
    ensures key in fields && fields[key].Null? ==> r == Some("")
    ensures r.None? <==> key in fields && !fields[key].Str? && !fields[key].Null?
  {
    if key !in fields then Some("")
    else match fields[key]
      case Str(s) => Some(s)
      case Null => Some("")
      case _ => None
  }

  /** An `int` field: absent or `null` leaves 0, an integer in range is taken, anything else is an error. */
  function IntField(fields: map<string, Json>, key: string): (r: Option<int>)
    ensures key in fields && fields[key].Number? && MinInt64 <= fields[key].n <= MaxInt64 ==>
              r == Some(fields[key].n)
    ensures key !in fields ==> r == Some(0)
    ensures key in fields && fields[key].Null? ==> r == Some(0)
    ensures r.None? <==>
              key in fields && !fields[key].Null? &&
              !(fields[key].Number? && MinInt64 <= fields[key].n <= MaxInt64)
    ensures r.Some? ==> MinInt64 <= r.value <= MaxInt64
  {
    if key !in fields then Some(0)
    else match fields[key]
      case Number(n) => if MinInt64 <= n <= MaxInt64 then Some(n) else None
      case Null => Some(0)
      case _ => None
  }
}
