/** The comments service of the exercises2 backend
    (`exercises2/backend/services/CommentsService/app.py`) and the way the troubles screen
    (`exercises2/frontend/app/troubles/page.tsx`) reads a comment's sort key back. Comments are
    stored under the partition key "trouble#<id>" with the sort key
    "createdAt#<timestamp>#<comment id>". The comment table is a sequence of items; the clock
    and the UUID generator are parameters. */
module CommentsService {
  import opened Wrappers
  import opened Strings
  import opened JsonValue
  import opened Seqs

  const ServerErrorMessage: string := "サーバー内部エラー"
  const MissingTroubleId: string := "Missing required parameter: trouble_id"
  const MissingParameters: string := "Missing required parameters: trouble_id and comment"
  const PreflightMessage: string := "CORS preflight response"
  const NullBodyError: string := "the JSON object must be str, bytes or bytearray, not NoneType"

  /** One stored comment. */
  datatype CommentItem = CommentItem(pk: string, sk: string, userId: string, comment: Json)

  /** A comment as JSON, with the attribute names the table uses. */
  function ItemJson(item: CommentItem): (j: Json)
    ensures j.JObj? && j.fields.Keys == {"PK", "SK", "user_id", "comment"}
    ensures j.fields["PK"] == JStr(item.pk) && j.fields["SK"] == JStr(item.sk)
    ensures j.fields["user_id"] == JStr(item.userId) && j.fields["comment"] == item.comment
  {
    JObj(map["PK" := JStr(item.pk), "SK" := JStr(item.sk), "user_id" := JStr(item.userId), "comment" := item.comment])
  }

  /** The partition key of a trouble's comments. */
  function TroubleKey(troubleId: string): (k: string)
    ensures StartsWith(k, "trouble#") && RemovePrefix(k, "trouble#") == troubleId
  {
    assert ("trouble#" + troubleId)[..|"trouble#"|] == "trouble#";
    "trouble#" + troubleId
  }

  /** The sort key of a comment: creation time, then comment id. */
  function SortKey(timestamp: string, commentId: string): string
  {
    "createdAt#" + timestamp + "#" + commentId
  }

  /** The troubles screen reads a comment's time and id as pieces 1 and 2 of
      `SK.split('#')`; that gives back the timestamp and the id whenever neither contains
      "#" (an ISO timestamp and a UUID never do). */
  lemma SortKeyRoundTrip(timestamp: string, commentId: string)
    requires '#' !in timestamp && '#' !in commentId
    ensures Split(SortKey(timestamp, commentId), '#') == ["createdAt", timestamp, commentId]
  {
    var parts := ["createdAt", timestamp, commentId];
    assert Join(parts, "#") == SortKey(timestamp, commentId) by {
      assert parts[1..][1..] == [commentId];
      assert Join(parts[1..], "#") == timestamp + "#" + commentId;
    }
    SplitJoin(parts, '#');
  }

  /** Python's `str()` of a decoded JSON scalar, as an f-string prints it. Lists and objects
      are left out (`None`). */
  function PyStr(j: Json): (r: Option<string>)
    ensures r.None? <==> j.JArr? || j.JObj?
    ensures j.JStr? ==> r == Some(j.s)
  {
    match j
    case JNull => Some("None")
    case JBool(b) => Some(if b then "True" else "False")
    case JInt(i) => Some(IntToString(i))
    case JStr(s) => Some(s)
    case _ => None
  }

  /** The comments of a trouble: the items under its partition key, in table order. */
  function Query(table: seq<CommentItem>, pk: string): (items: seq<CommentItem>)
    ensures forall x :: x in items <==> x in table && x.pk == pk
  {
    Filter(table, (x: CommentItem) => x.pk == pk)
  }

  /** `put_item`: the item replaces any item with the same partition and sort key. */
  function Put(table: seq<CommentItem>, item: CommentItem): (r: seq<CommentItem>)
    ensures item in r
    ensures forall x :: x in r && x != item ==> x in table && (x.pk, x.sk) != (item.pk, item.sk)
    ensures forall x :: x in table && (x.pk, x.sk) != (item.pk, item.sk) ==> x in r
  {
    Filter(table, (x: CommentItem) => (x.pk, x.sk) != (item.pk, item.sk)) + [item]
  }

  /** An API Gateway event, as far as the handler reads it; `principal` is the authorizer's
      `principalId`. */
  datatype Event = Event(httpMethod: string, queryParams: Option<map<string, string>>, body: EventBody, principal: string)

  function ServerError(error: string): Response
  {
    Response(500, JObj(map["message" := JStr(ServerErrorMessage), "error" := JStr(error)]))
  }

  /** `get_comments`: a missing or empty `trouble_id` gives 400; otherwise the comments of
      that trouble. A table error gives 500, and so does a numeric value in a comment, because
      it comes back as a `Decimal`. */
  function GetComments(queryParams: Option<map<string, string>>, table: seq<CommentItem>, fault: Option<string>): (r: Response)
    ensures r.Response?
    ensures r.statusCode == 400 <==> (var p := queryParams.GetOr(map[]); "trouble_id" !in p || p["trouble_id"] == "")
    ensures r.statusCode == 200 ==>
              var items := Query(table, TroubleKey(queryParams.value["trouble_id"]));
              r.body == JArr(Map(items, ItemJson)) && forall i :: 0 <= i < |items| ==> !HasNumber(items[i].comment)
  {
    var params := queryParams.GetOr(map[]);
    if "trouble_id" !in params || params["trouble_id"] == "" then
      Response(400, JObj(map["error" := JStr(MissingTroubleId)]))
    else if fault.Some? then
      ServerError(fault.value)
    else
      var items := Query(table, TroubleKey(params["trouble_id"]));
      if exists i :: 0 <= i < |items| && HasNumber(items[i].comment) then ServerError(DecimalNotSerializable)
      else Response(200, JArr(Map(items, ItemJson)))
  }

  /** `post_comments`: decode the body, insist on a truthy `trouble_id` and `comment`, store
      the comment under the trouble's key with a fresh sort key, and answer 201 with the
      stored item. Every exception becomes 500 with its text; `decodeError` is the text of
      the `JSONDecodeError` for a malformed body. */
  function PostComment(body: EventBody, principal: string, timestamp: string, commentId: string,
                       table: seq<CommentItem>, fault: Option<string>, decodeError: string): (r: (Response, seq<CommentItem>))
    ensures r.0.Response? && r.0.statusCode in {201, 400, 500}
    ensures r.0.statusCode != 201 ==> r.1 == table
    ensures r.0.statusCode == 400 <==>
              body.Text? && body.decoded.Some? && body.decoded.value.JObj?
              && !(Truthy(Get(body.decoded.value.fields, "trouble_id").GetOr(JNull))
                   && Truthy(Get(body.decoded.value.fields, "comment").GetOr(JNull)))
    ensures r.0.statusCode == 201 ==>
              body.Text? && body.decoded.Some? && body.decoded.value.JObj?
              && "trouble_id" in body.decoded.value.fields && "comment" in body.decoded.value.fields
              && PyStr(body.decoded.value.fields["trouble_id"]).Some?
    ensures r.0.statusCode == 201 ==>
              var fields := body.decoded.value.fields;
              var item := CommentItem(TroubleKey(PyStr(fields["trouble_id"]).value), SortKey(timestamp, commentId),
                                      "user#" + principal, fields["comment"]);
              r.0.body == ItemJson(item) && r.1 == Put(table, item)
  {
    match body
    case Absent => (ServerError("'body'"), table)
    case NullBody => (ServerError(NullBodyError), table)
    case Text(None) => (ServerError(decodeError), table)
    case Text(Some(j)) =>
      if !j.JObj? then (ServerError("'" + PyTypeName(j) + "' object has no attribute 'get'"), table)
      else
        var troubleId := Get(j.fields, "trouble_id").GetOr(JNull);
        var comment := Get(j.fields, "comment").GetOr(JNull);
        if !Truthy(troubleId) || !Truthy(comment) then
          (Response(400, JObj(map["error" := JStr(MissingParameters)])), table)
        else if PyStr(troubleId).None? then
          (ServerError("trouble_id of type " + PyTypeName(troubleId)), table)
        else
          var item := CommentItem(TroubleKey(PyStr(troubleId).value), SortKey(timestamp, commentId),
                                  "user#" + principal, comment);
          if fault.Some? then (ServerError(fault.value), table)
          else (Response(201, ItemJson(item)), Put(table, item))
  }

  /** `lambda_handler`: dispatch on the HTTP method; a method other than GET, POST and
      OPTIONS returns nothing (`None`). */
  function Handle(event: Event, timestamp: string, commentId: string, table: seq<CommentItem>,
                  fault: Option<string>, decodeError: string): (r: (Option<Response>, seq<CommentItem>))
    ensures r.0.None? <==> event.httpMethod !in {"GET", "POST", "OPTIONS"}
    ensures event.httpMethod == "OPTIONS" ==>
              r == (Some(Response(200, JObj(map["message" := JStr(PreflightMessage)]))), table)
    ensures event.httpMethod == "GET" ==> r == (Some(GetComments(event.queryParams, table, fault)), table)
    ensures event.httpMethod == "POST" ==>
              var post := PostComment(event.body, event.principal, timestamp, commentId, table, fault, decodeError);
              r == (Some(post.0), post.1)
    ensures event.httpMethod != "POST" ==> r.1 == table
  {
    if event.httpMethod == "GET" then (Some(GetComments(event.queryParams, table, fault)), table)
    else if event.httpMethod == "POST" then
      var post := PostComment(event.body, event.principal, timestamp, commentId, table, fault, decodeError);
      (Some(post.0), post.1)
    else if event.httpMethod == "OPTIONS" then (Some(Response(200, JObj(map["message" := JStr(PreflightMessage)]))), table)
    else (None, table)
  }

  /** A comment posted on a trouble is among the comments a later GET for that trouble
      returns, and the sort key it carries splits back into its time and id. */
  lemma PostThenGet(troubleId: string, text: string, principal: string, timestamp: string, commentId: string,
                    table: seq<CommentItem>)
    requires troubleId != "" && text != ""
    requires '#' !in timestamp && '#' !in commentId
    requires forall x :: x in table ==> !HasNumber(x.comment)
    ensures var body := Text(Some(JObj(map["trouble_id" := JStr(troubleId), "comment" := JStr(text)])));
            var post := PostComment(body, principal, timestamp, commentId, table, None, "");
            var item := CommentItem(TroubleKey(troubleId), SortKey(timestamp, commentId), "user#" + principal, JStr(text));
            && post.0 == Response(201, ItemJson(item))
            && GetComments(Some(map["trouble_id" := troubleId]), post.1, None).statusCode == 200
            && item in Query(post.1, TroubleKey(troubleId))
            && Split(item.sk, '#') == ["createdAt", timestamp, commentId]
  {
    var fields := map["trouble_id" := JStr(troubleId), "comment" := JStr(text)];
    var body := Text(Some(JObj(fields)));
    var item := CommentItem(TroubleKey(troubleId), SortKey(timestamp, commentId), "user#" + principal, JStr(text));
    assert Get(fields, "trouble_id") == Some(JStr(troubleId)) && Get(fields, "comment") == Some(JStr(text));
    var post := PostComment(body, principal, timestamp, commentId, table, None, "");
    assert post == (Response(201, ItemJson(item)), Put(table, item));
    var items := Query(post.1, TroubleKey(troubleId));
    assert item in items;
    forall i | 0 <= i < |items| ensures !HasNumber(items[i].comment) {
      assert items[i] in post.1;
    }
    assert GetComments(Some(map["trouble_id" := troubleId]), post.1, None) == Response(200, JArr(Map(items, ItemJson)));
    SortKeyRoundTrip(timestamp, commentId);
  }
}
