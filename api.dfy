/** The API client of the exercises2 frontend (`exercises2/frontend/libs/api.ts`): every call
    carries the ID token as a bearer token, and every failure surfaces as an `APIError` with
    an HTTP-like status. The network is represented by what `fetch` produced. */
module ApiClient {
  import opened Wrappers
  import opened Strings
  import opened JsonValue

  const MissingTokenMessage: string := "認証トークンがありません"
  const CallFailedPrefix: string := "API呼び出しに失敗しました: "
  const NetworkErrorPrefix: string := "ネットワークエラー: "
  const UnknownError: string := "Unknown error"
  const ApiBaseMissing: string :=
    "NEXT_PUBLIC_API_BASE_URL environment variable is required. Please add it to your .env.local file."
  const CommentsBaseMissing: string :=
    "NEXT_PUBLIC_COMMENTS_API_URL environment variable is required. Please add it to your .env.local file."

  /** The two base URLs read from the environment at load time. */
  datatype Config = Config(apiBase: string, commentsBase: string)

  /** Loading the module: each base URL must be set and non-empty, the API base first;
      otherwise loading throws with the matching message. */
  function LoadConfig(apiBase: Option<string>, commentsBase: Option<string>): (r: Result<Config, string>)
    ensures r.Success? <==> apiBase.Some? && apiBase.value != "" && commentsBase.Some? && commentsBase.value != ""
    ensures r.Success? ==> r.value == Config(apiBase.value, commentsBase.value)
    ensures !(apiBase.Some? && apiBase.value != "") ==> r == Failure(ApiBaseMissing)
  {
    if !(apiBase.Some? && apiBase.value != "") then Failure(ApiBaseMissing)
    else if !(commentsBase.Some? && commentsBase.value != "") then Failure(CommentsBaseMissing)
    else Success(Config(apiBase.value, commentsBase.value))
  }

  /** The `RequestInit` a caller passes: method, extra headers and a JSON body. */
  datatype Options = Options(verb: Option<string>, headers: map<string, string>, body: Option<Json>)

  /** The request handed to `fetch`. */
  datatype Request = Request(url: string, verb: Option<string>, headers: map<string, string>, body: Option<Json>)

  /** The body of a response, as `response.json()` reads it. */
  datatype BodyOutcome = ParsedBody(data: Json) | ParseFailure(errorMessage: string)

  /** What `fetch` produced: a response, or a rejection with an `Error` (its message) or with
      some other value (`None`). */
  datatype FetchOutcome =
    | HttpResponse(status: int, statusText: string, body: BodyOutcome)
    | NetworkFailure(errorMessage: Option<string>)

  /** The promise `apiCall` returns: the decoded data, or an `APIError`. */
  datatype ApiResult = Data(data: Json) | ApiError(status: int, message: string)

  /** `response.ok`. */
  predicate IsOk(status: int) { 200 <= status <= 299 }

  /** The headers sent: the JSON content type and the bearer token, with every header the
      caller gives taking precedence. */
  function MergedHeaders(idToken: string, callerHeaders: map<string, string>): (h: map<string, string>)
    ensures h.Keys == {"Content-Type", "Authorization"} + callerHeaders.Keys
    ensures forall k :: k in callerHeaders ==> h[k] == callerHeaders[k]
    ensures "Authorization" !in callerHeaders ==> h["Authorization"] == "Bearer " + idToken
    ensures "Content-Type" !in callerHeaders ==> h["Content-Type"] == "application/json"
  {
    map["Content-Type" := "application/json", "Authorization" := "Bearer " + idToken] + callerHeaders
  }

  /** The error text of a thrown value: an `Error`'s message, else "Unknown error". */
  function ErrorText(errorMessage: Option<string>): string
  {
    errorMessage.GetOr(UnknownError)
  }

  /** `apiCall`: the request sent (`None` when no request is made) and the outcome. */
  function ApiCall(endpoint: string, options: Options, baseUrl: string, idToken: Option<string>,
                   fetched: FetchOutcome): (r: (Option<Request>, ApiResult))
    ensures r.0.None? <==> idToken.None? || idToken.value == ""
    ensures r.0.None? ==> r.1 == ApiError(401, MissingTokenMessage)
    ensures r.0.Some? ==> r.0.value == Request(baseUrl + endpoint, options.verb,
                                                MergedHeaders(idToken.value, options.headers), options.body)
    ensures r.0.Some? && fetched.HttpResponse? && !IsOk(fetched.status) ==>
              r.1 == ApiError(fetched.status, CallFailedPrefix + IntToString(fetched.status) + " " + fetched.statusText)
    ensures r.0.Some? && fetched.HttpResponse? && IsOk(fetched.status) ==>
              r.1 == (match fetched.body
                      case ParsedBody(data) => Data(data)
                      case ParseFailure(m) => ApiError(500, NetworkErrorPrefix + m))
    ensures r.0.Some? && fetched.NetworkFailure? ==> r.1 == ApiError(500, NetworkErrorPrefix + ErrorText(fetched.errorMessage))
  {
    if idToken.None? || idToken.value == "" then (None, ApiError(401, MissingTokenMessage))
    else
      var request := Request(baseUrl + endpoint, options.verb, MergedHeaders(idToken.value, options.headers), options.body);
      var outcome :=
        match fetched
        case NetworkFailure(m) => ApiError(500, NetworkErrorPrefix + ErrorText(m))
        case HttpResponse(status, statusText, body) =>
          if !IsOk(status) then ApiError(status, CallFailedPrefix + IntToString(status) + " " + statusText)
          else match body
            case ParsedBody(data) => Data(data)
            case ParseFailure(m) => ApiError(500, NetworkErrorPrefix + m);
      (Some(request), outcome)
  }

  /** The status of an `APIError` is 401 without a token, the response's own status for a
      non-2xx answer, and 500 for everything else; a 2xx answer never turns into an error
      with its own status. */
  lemma ErrorStatuses(endpoint: string, options: Options, baseUrl: string, idToken: Option<string>, fetched: FetchOutcome)
    requires ApiCall(endpoint, options, baseUrl, idToken, fetched).1.ApiError?
    ensures var status := ApiCall(endpoint, options, baseUrl, idToken, fetched).1.status;
            status == 401 || status == 500 || (fetched.HttpResponse? && status == fetched.status && !IsOk(status))
  {
  }

  // ---- `application/x-www-form-urlencoded`, as `URLSearchParams.toString()` writes it ----

  /** The UTF-8 encoding of one character (a Unicode scalar value). */
  function Utf8(c: char): (bytes: seq<nat>)
    ensures 1 <= |bytes| <= 4
    ensures forall i :: 0 <= i < |bytes| ==> bytes[i] < 256
    ensures c as int < 0x80 ==> bytes == [c as int]
    ensures c as int >= 0x80 ==> forall i :: 0 <= i < |bytes| ==> bytes[i] >= 0x80
  {
    var n := c as int;
    if n < 0x80 then [n]
    else if n < 0x800 then [0xC0 + n / 64, 0x80 + n % 64]
    else if n < 0x10000 then [0xE0 + n / 4096, 0x80 + (n / 64) % 64, 0x80 + n % 64]
    else [0xF0 + n / 262144, 0x80 + (n / 4096) % 64, 0x80 + (n / 64) % 64, 0x80 + n % 64]
  }

  function Utf8String(s: string): (bytes: seq<nat>)
    ensures forall i :: 0 <= i < |bytes| ==> bytes[i] < 256
  {
    if |s| == 0 then [] else Utf8(s[0]) + Utf8String(s[1..])
  }

  /** The bytes the serializer writes as themselves: `*`, `-`, `.`, `_` and ASCII letters and
      digits. */
  predicate Unreserved(b: nat)
  {
    b == 0x2A || b == 0x2D || b == 0x2E || b == 0x5F
    || (0x30 <= b <= 0x39) || (0x41 <= b <= 0x5A) || (0x61 <= b <= 0x7A)
  }

  const HexDigits: string := "0123456789ABCDEF"

  /** One byte of a form-encoded value: itself when unreserved, "+" for a space, else "%"
      and two upper-case hexadecimal digits. */
  function EncodeByte(b: nat): (r: string)
    requires b < 256
    ensures |r| == 1 || |r| == 3
  {
    if Unreserved(b) then [b as char]
    else if b == 0x20 then "+"
    else ['%', HexDigits[b / 16], HexDigits[b % 16]]
  }

  function EncodeBytes(bytes: seq<nat>): string
    requires forall i :: 0 <= i < |bytes| ==> bytes[i] < 256
  {
    if |bytes| == 0 then "" else EncodeByte(bytes[0]) + EncodeBytes(bytes[1..])
  }

  /** The form encoding of a text: its UTF-8 bytes, encoded one by one. */
  function FormEncode(s: string): string
  {
    EncodeBytes(Utf8String(s))
  }

  function HexValue(c: char): Option<nat>
  {
    if '0' <= c <= '9' then Some(c as int - '0' as int)
    else if 'A' <= c <= 'F' then Some(c as int - 'A' as int + 10)
    else None
  }

  lemma HexRoundTrip(d: nat)
    requires d < 16
    ensures HexValue(HexDigits[d]) == Some(d)
  {
  }

  /** Reads a form-encoded text back into bytes: "+" is a space, "%XX" a byte, an
      unreserved character itself; anything else is malformed. */
  function DecodeBytes(t: string): (r: Option<seq<nat>>)
    decreases |t|
  {
    if |t| == 0 then Some([])
    else if t[0] == '+' then
      match DecodeBytes(t[1..]) case None => None case Some(rest) => Some([0x20] + rest)
    else if t[0] == '%' then
      if |t| < 3 || HexValue(t[1]).None? || HexValue(t[2]).None? then None
      else match DecodeBytes(t[3..])
        case None => None
        case Some(rest) => Some([HexValue(t[1]).value * 16 + HexValue(t[2]).value] + rest)
    else if Unreserved(t[0] as int) then
      match DecodeBytes(t[1..]) case None => None case Some(rest) => Some([t[0] as int] + rest)
    else None
  }

  /** Decoding one encoded byte in front of more text yields that byte in front of the
      decoding of the rest. */
  lemma DecodeByteStep(b: nat, rest: string)
    requires b < 256
    ensures DecodeBytes(EncodeByte(b) + rest) ==
            match DecodeBytes(rest) case None => None case Some(bs) => Some([b] + bs)
  {
    var t := EncodeByte(b) + rest;
    if Unreserved(b) {
      assert t[0] == b as char && t[1..] == rest;
    } else if b == 0x20 {
      assert t[0] == '+' && t[1..] == rest;
    } else {
      HexRoundTrip(b / 16);
      HexRoundTrip(b % 16);
      assert t[0] == '%' && t[1] == HexDigits[b / 16] && t[2] == HexDigits[b % 16] && t[3..] == rest;
    }
  }

  /** Round trip: decoding the encoding of any byte string gives it back. */
  lemma {:induction false} EncodeDecodeBytes(bytes: seq<nat>)
    requires forall i :: 0 <= i < |bytes| ==> bytes[i] < 256
    ensures DecodeBytes(EncodeBytes(bytes)) == Some(bytes)
    decreases |bytes|
  {
    if |bytes| > 0 {
      EncodeDecodeBytes(bytes[1..]);
      DecodeByteStep(bytes[0], EncodeBytes(bytes[1..]));
      assert [bytes[0]] + bytes[1..] == bytes;
    }
  }

  /** Round trip for the text form: the query value decodes to the UTF-8 bytes of the
      original text. */
  lemma FormEncodeDecodes(s: string)
    ensures DecodeBytes(FormEncode(s)) == Some(Utf8String(s))
  {
    EncodeDecodeBytes(Utf8String(s));
  }

  /** An encoded value holds no character that would end it inside a query string. */
  lemma {:induction false} EncodedHasNoDelimiter(bytes: seq<nat>)
    requires forall i :: 0 <= i < |bytes| ==> bytes[i] < 256
    ensures forall i :: 0 <= i < |EncodeBytes(bytes)| ==> EncodeBytes(bytes)[i] !in {'&', '=', '#', '?'}
    decreases |bytes|
  {
    if |bytes| > 0 {
      EncodedHasNoDelimiter(bytes[1..]);
      var head := EncodeByte(bytes[0]);
      assert forall i :: 0 <= i < |head| ==> head[i] !in {'&', '=', '#', '?'};
    }
  }

  // ---- Endpoints ----

  /** `listTroubles`: "/troubles", with a `nextToken` query only when a non-empty token is
      given. */
  function ListTroublesEndpoint(nextToken: Option<string>): (e: string)
    ensures nextToken.None? || nextToken.value == "" ==> e == "/troubles"
    ensures nextToken.Some? && nextToken.value != "" ==> e == "/troubles?nextToken=" + FormEncode(nextToken.value)
  {
    if nextToken.Some? && nextToken.value != "" then "/troubles?nextToken=" + FormEncode(nextToken.value)
    else "/troubles"
  }

  /** `getComments`: the comments of one trouble, on the comments API. */
  function GetCommentsEndpoint(troubleId: string): (e: string)
    ensures StartsWith(e, "/comments?trouble_id=")
    ensures e[|"/comments?trouble_id="|..] == FormEncode(troubleId)
  {
    "/comments?trouble_id=" + FormEncode(troubleId)
  }

  /** The request `listTroubles` sends: a GET on the API base. */
  function ListTroubles(config: Config, nextToken: Option<string>, idToken: Option<string>, fetched: FetchOutcome): (r: (Option<Request>, ApiResult))
    ensures r.0.None? <==> idToken.None? || idToken.value == ""
    ensures r.0.None? ==> r.1 == ApiError(401, MissingTokenMessage)
    ensures r.0.Some? ==> r.0.value.url == config.apiBase + ListTroublesEndpoint(nextToken)
                          && r.0.value.verb == None && r.0.value.body == None
                          && r.0.value.headers == MergedHeaders(idToken.value, map[])
  {
    ApiCall(ListTroublesEndpoint(nextToken), Options(None, map[], None), config.apiBase, idToken, fetched)
  }

  /** `createTrouble`: a POST of the trouble to "/troubles" on the API base. */
  function CreateTrouble(config: Config, trouble: Json, idToken: Option<string>, fetched: FetchOutcome): (r: (Option<Request>, ApiResult))
    ensures r.0.None? <==> idToken.None? || idToken.value == ""
    ensures r.0.Some? ==> r.0.value.url == config.apiBase + "/troubles" && r.0.value.verb == Some("POST")
                          && r.0.value.body == Some(trouble)
  {
    ApiCall("/troubles", Options(Some("POST"), map[], Some(trouble)), config.apiBase, idToken, fetched)
  }

  /** `getComments`: a GET on the comments API. */
  function GetComments(config: Config, troubleId: string, idToken: Option<string>, fetched: FetchOutcome): (r: (Option<Request>, ApiResult))
    ensures r.0.None? <==> idToken.None? || idToken.value == ""
    ensures r.0.Some? ==> r.0.value.url == config.commentsBase + GetCommentsEndpoint(troubleId)
                          && r.0.value.verb == None
  {
    ApiCall(GetCommentsEndpoint(troubleId), Options(None, map[], None), config.commentsBase, idToken, fetched)
  }

  /** `createComment`: a POST of the comment to "/comments" on the comments API. */
  function CreateComment(config: Config, comment: Json, idToken: Option<string>, fetched: FetchOutcome): (r: (Option<Request>, ApiResult))
    ensures r.0.None? <==> idToken.None? || idToken.value == ""
    ensures r.0.Some? ==> r.0.value.url == config.commentsBase + "/comments" && r.0.value.verb == Some("POST")
                          && r.0.value.body == Some(comment)
  {
    ApiCall("/comments", Options(Some("POST"), map[], Some(comment)), config.commentsBase, idToken, fetched)
  }
}
