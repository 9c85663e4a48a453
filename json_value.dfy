/** JSON values as the handlers see them after `json.loads`, and the response shape every
    API Gateway handler returns. Floating-point numbers are not modelled. */
module JsonValue {
  import opened Wrappers

  datatype Json =
    | JNull
    | JBool(b: bool)
    | JInt(i: int)
    | JStr(s: string)
    | JArr(items: seq<Json>)
    | JObj(fields: map<string, Json>)

  /** Python truthiness of a decoded JSON value (`if value:` / `not value`). */
  predicate Truthy(j: Json)
  {
    match j
    case JNull => false
    case JBool(b) => b
    case JInt(i) => i != 0
    case JStr(s) => s != ""
    case JArr(items) => |items| > 0
    case JObj(fields) => |fields| > 0
  }

  /** Python's `d.get(key)`: `None` for a missing key. */
  function Get(d: map<string, Json>, key: string): Option<Json>
  {
    if key in d then Some(d[key]) else None
  }

  /** Python's `d.get(key)` followed by `is not None`: a missing key and a JSON `null` both
      read as absent. */
  function GetNonNull(d: map<string, Json>, key: string): (r: Option<Json>)
    ensures r.Some? <==> key in d && d[key] != JNull
    ensures r.Some? ==> r.value == d[key]
  {
    if key in d && d[key] != JNull then Some(d[key]) else None
  }

  /** A JSON array of strings as a sequence of strings, if it is one. */
  function Strings(items: seq<Json>): (r: Option<seq<string>>)
    ensures r.Some? <==> forall i :: 0 <= i < |items| ==> items[i].JStr?
    ensures r.Some? ==> |r.value| == |items| && forall i :: 0 <= i < |items| ==> items[i] == JStr(r.value[i])
  {
    if |items| == 0 then Some([])
    else if !items[0].JStr? then None
    else match Strings(items[1..])
      case None => None
      case Some(rest) => Some([items[0].s] + rest)
  }

  /** A sequence of strings as a JSON array. */
  function StrArray(ss: seq<string>): (r: Json)
    ensures r.JArr? && |r.items| == |ss|
    ensures forall i :: 0 <= i < |ss| ==> r.items[i] == JStr(ss[i])
  {
    JArr(seq(|ss|, i requires 0 <= i < |ss| => JStr(ss[i])))
  }

  /** The `body` field of an API Gateway event: missing, JSON `null`, or text that either
      decodes to a JSON value or is not valid JSON. */
  datatype EventBody = Absent | NullBody | Text(decoded: Option<Json>)

  /** What `json.loads(event.get("body", "{}"))` gives: a value, a `JSONDecodeError` for
      malformed text, or a `TypeError` when the body is `null`. */
  datatype Decoded = Parsed(value: Json) | DecodeError | TypeError

  function DecodeBody(b: EventBody): (d: Decoded)
    ensures b.Absent? ==> d == Parsed(JObj(map[]))
    ensures d.DecodeError? <==> b.Text? && b.decoded.None?
  {
    match b
    case Absent => Parsed(JObj(map[]))
    case NullBody => TypeError
    case Text(None) => DecodeError
    case Text(Some(j)) => Parsed(j)
  }

  /** A value holding a number somewhere. DynamoDB returns numbers as `Decimal`, which
      `json.dumps` refuses to serialise. */
  predicate HasNumber(j: Json)
  {
    match j
    case JInt(_) => true
    case JArr(items) => exists i :: 0 <= i < |items| && HasNumber(items[i])
    case JObj(fields) => exists k :: k in fields && HasNumber(fields[k])
    case _ => false
  }

  /** The text of the `TypeError` that `json.dumps` raises on such a value. */
  const DecimalNotSerializable: string := "Object of type Decimal is not JSON serializable"

  /** Python's name for the type of a decoded JSON value, as it appears in error texts. */
  function PyTypeName(j: Json): string
  {
    match j
    case JNull => "NoneType"
    case JBool(_) => "bool"
    case JInt(_) => "int"
    case JStr(_) => "str"
    case JArr(_) => "list"
    case JObj(_) => "dict"
  }

  /** What an API Gateway proxy handler returns: a status code and a JSON body, or nothing
      when an exception escapes the handler (the platform then answers with its own error). */
  datatype Response =
    | Response(statusCode: int, body: Json)
    | Unhandled
}
