/** The exercises1 TODO update handler (`exercises1/backend/todo_service/UpdateTodo/app.py`):
    validate the body against the update schema, build a `SET` expression from the fields
    that are given, apply it to the stored item, and answer with the item and its defaults.
    The TODO table is a map from id to item attributes; the outcome of `update_item` other
    than the existence check is an input. */
module UpdateTodoHandler {
  import opened Wrappers
  import opened JsonValue
  import opened UpdateExpressions
  import opened TodoSchemas
  import opened Strings

  const InvalidInputMessage: string := "入力が無効です"
  const NotFoundMessage: string := "指定されたTODOが見つかりません"
  const ServerErrorMessage: string := "サーバー内部エラー"
  const CompletedNotBoolMessage: string := "is_completedはブール値である必要があります"

  /** The assignment for an optional field: one when `body.get(f) is not None`, none
      otherwise. */
  function Optional(fields: map<string, Json>, f: string): (r: seq<Assignment>)
    ensures |r| <= 1
    ensures forall x :: x in r ==> x.ref == f && x.name == f
    ensures |r| == 1 <==> f in fields && fields[f] != JNull
    ensures |r| == 1 ==> r[0] == Direct(f, fields[f])
  {
    if f in fields && fields[f] != JNull then [Direct(f, fields[f])] else []
  }

  /** The value `is_completed` is set to: the given boolean, `False` when it is missing or
      `null`, and no value (the 400 answer) for anything else. */
  function CompletedValue(fields: map<string, Json>): (r: Option<Json>)
    ensures r.Some? ==> r.value.JBool?
    ensures r.Some? <==> "is_completed" !in fields || fields["is_completed"] == JNull || fields["is_completed"].JBool?
    ensures ("is_completed" !in fields || fields["is_completed"] == JNull) ==> r == Some(JBool(false))
    ensures "is_completed" in fields && fields["is_completed"].JBool? ==> r == Some(fields["is_completed"])
  {
    var v := Get(fields, "is_completed");
    if v.None? || v.value == JNull then Some(JBool(false))
    else if v.value.JBool? then Some(v.value)
    else None
  }

  /** The assignments the handler makes, in the order of the source. */
  function UpdateAssignments(fields: map<string, Json>): (r: Option<seq<Assignment>>)
    ensures r.Some? ==> forall i :: 0 <= i < |r.value| ==> WellNamed(r.value[i])
  {
    match CompletedValue(fields)
    case None => None
    case Some(c) =>
      Some(Optional(fields, "title") + Optional(fields, "description") + Optional(fields, "due_date")
           + [Direct("is_completed", c)] + Optional(fields, "priority") + Optional(fields, "tags"))
  }

  /** The fields the handler may write. */
  const Written: set<string> := {"title", "description", "due_date", "is_completed", "priority", "tags"}

  /** Every assignment writes a field of the TODO under its own name: an optional field
      only when it is given non-null, with its given value, and `is_completed` always, with
      the value `CompletedValue` chooses. */
  lemma AssignmentsShape(fields: map<string, Json>)
    requires UpdateAssignments(fields).Some?
    ensures var a := UpdateAssignments(fields).value;
            && (forall x :: x in a ==> x.ref == x.name && x.name in Written && WellNamed(x))
            && (forall x :: x in a && x.name != "is_completed" ==>
                  x.name in fields && fields[x.name] != JNull && x.value == fields[x.name])
            && (forall x :: x in a && x.name == "is_completed" ==> x.value == CompletedValue(fields).value)
            && Direct("is_completed", CompletedValue(fields).value) in a
            && (forall f :: f in Written && f != "is_completed" && f in fields && fields[f] != JNull ==>
                  Direct(f, fields[f]) in a)
  {
  }

  /** The assignments write each field at most once. */
  lemma AssignmentsDistinct(fields: map<string, Json>)
    requires UpdateAssignments(fields).Some?
    ensures DistinctRefs(UpdateAssignments(fields).value)
  {
    var t, d, u := Optional(fields, "title"), Optional(fields, "description"), Optional(fields, "due_date");
    var p, g := Optional(fields, "priority"), Optional(fields, "tags");
    var c := [Direct("is_completed", CompletedValue(fields).value)];
    DistinctConcat(t, d);
    DistinctConcat(t + d, u);
    DistinctConcat(t + d + u, c);
    DistinctConcat(t + d + u + c, p);
    DistinctConcat(t + d + u + c + p, g);
  }

  /** `UpdateAssignments` succeeds exactly when `is_completed`, if given and not `null`, is a
      boolean; the update schema guarantees that. */
  lemma SchemaAdmitsAssignments(body: Json)
    requires UpdateSchemaValid(body)
    ensures UpdateAssignments(body.fields).Some?
  {
  }

  /** The `rstrip(", ")` of the pending text is the finished expression. */
  lemma StrippedIsExpression(fields: map<string, Json>)
    requires UpdateAssignments(fields).Some?
    ensures forall i :: 0 <= i < |UpdateAssignments(fields).value| ==> WellNamed(UpdateAssignments(fields).value[i])
    ensures RStrip(Pending(UpdateAssignments(fields).value), SeparatorChars) == Expression(UpdateAssignments(fields).value)
  {
    AssignmentsShape(fields);
  }

  /** One optional field: added when `body.get(f) is not None`. */
  method AddGiven(fields: map<string, Json>, f: string, expr: string, values: map<string, Json>, ghost done: seq<Assignment>)
    returns (expr': string, values': map<string, Json>, ghost done': seq<Assignment>)
    requires expr == Pending(done) && values == ValuesOf(done)
    ensures expr' == Pending(done + Optional(fields, f)) && values' == ValuesOf(done + Optional(fields, f))
    ensures done' == done + Optional(fields, f)
  {
    expr', values', done' := expr, values, done;
    var value := Get(fields, f);
    if value.Some? && value.value != JNull {
      expr', values', done' := AddClause(f, value.value, expr, values, done);
    } else {
      assert done + Optional(fields, f) == done;
    }
  }

  /** Builds the update expression and value map field by field, as the handler does. `None`
      is the 400 answer for a non-boolean `is_completed`. */
  method BuildUpdate(fields: map<string, Json>) returns (r: Option<(string, map<string, Json>)>)
    ensures r.Some? <==> UpdateAssignments(fields).Some?
    ensures r.Some? ==> r.value.0 == Expression(UpdateAssignments(fields).value)
                        && r.value.1 == ValuesOf(UpdateAssignments(fields).value)
  {
    var expr := "SET ";
    var values: map<string, Json> := map[];
    ghost var done: seq<Assignment> := [];
    expr, values, done := AddGiven(fields, "title", expr, values, done);
    expr, values, done := AddGiven(fields, "description", expr, values, done);
    expr, values, done := AddGiven(fields, "due_date", expr, values, done);
    var isCompleted := Get(fields, "is_completed");
    var completed: Json;
    if isCompleted.Some? && isCompleted.value != JNull {
      if isCompleted.value.JBool? {
        completed := isCompleted.value;
      } else {
        return None;
      }
    } else {
      completed := JBool(false);
    }
    expr, values, done := AddClause("is_completed", completed, expr, values, done);
    expr, values, done := AddGiven(fields, "priority", expr, values, done);
    expr, values, done := AddGiven(fields, "tags", expr, values, done);
    assert done == UpdateAssignments(fields).value;
    StrippedIsExpression(fields);
    expr := RStrip(expr, SeparatorChars);
    return Some((expr, values));
  }

  /** The stored item after the update. */
  function Updated(item: map<string, Json>, fields: map<string, Json>): map<string, Json>
    requires UpdateAssignments(fields).Some?
  {
    Apply(item, UpdateAssignments(fields).value, map[])
  }

  /** An attribute the request does not set keeps its stored value (and stays absent when it
      was absent); only `is_completed` is written whether given or not. */
  lemma UpdatedKeepsOthers(item: map<string, Json>, fields: map<string, Json>, k: string)
    requires UpdateAssignments(fields).Some?
    requires k != "is_completed" && (k !in fields || fields[k] == JNull)
    ensures k in Updated(item, fields) <==> k in item
    ensures k in item ==> Updated(item, fields)[k] == item[k]
  {
    AssignmentsShape(fields);
    var a := UpdateAssignments(fields).value;
    forall i | 0 <= i < |a| ensures Target(a[i], map[]) != k {
      assert Target(a[i], map[]) == a[i].ref;
    }
    ApplyKeeps(item, a, map[], k);
  }

  /** A field given with a non-null value is stored with that value, and `is_completed` is
      stored as the given boolean or, when missing or `null`, as `false`. */
  lemma UpdatedSetsGiven(item: map<string, Json>, fields: map<string, Json>)
    requires UpdateAssignments(fields).Some?
    ensures forall f :: f in Written && f != "is_completed" && f in fields && fields[f] != JNull ==>
              f in Updated(item, fields) && Updated(item, fields)[f] == fields[f]
    ensures "is_completed" in Updated(item, fields)
    ensures Updated(item, fields)["is_completed"] == CompletedValue(fields).value
  {
    AssignmentsShape(fields);
    AssignmentsDistinct(fields);
    var a := UpdateAssignments(fields).value;
    forall f | f in Written && f != "is_completed" && f in fields && fields[f] != JNull
      ensures f in Updated(item, fields) && Updated(item, fields)[f] == fields[f]
    {
      var i :| 0 <= i < |a| && a[i] == Direct(f, fields[f]);
      assert Target(a[i], map[]) == f;
      ApplySets(item, a, map[], i);
    }
    var i :| 0 <= i < |a| && a[i] == Direct("is_completed", CompletedValue(fields).value);
    assert Target(a[i], map[]) == "is_completed";
    ApplySets(item, a, map[], i);
  }

  /** The 400 answer body for a schema violation. */
  function InvalidInput(detail: string): Json
  {
    JObj(map["message" := JStr(InvalidInputMessage), "errors" := JStr(detail)])
  }

  /** The 200 answer body: the stored item's fields with the defaults for missing ones
      (`description` "", `due_date` null, `is_completed` false, `priority` "medium", `tags`
      []). `None` where reading `id` or `title` raises `KeyError`. */
  function ResponseBody(item: map<string, Json>): (r: Option<Json>)
    ensures r.Some? <==> "id" in item && "title" in item
    ensures r.Some? ==> r.value.JObj? && r.value.fields.Keys == {"id", "title"} + Written
    ensures r.Some? ==> forall k :: k in r.value.fields && k in item ==> r.value.fields[k] == item[k]
    ensures r.Some? ==> "description" !in item ==> r.value.fields["description"] == JStr("")
    ensures r.Some? ==> "due_date" !in item ==> r.value.fields["due_date"] == JNull
    ensures r.Some? ==> "is_completed" !in item ==> r.value.fields["is_completed"] == JBool(false)
    ensures r.Some? ==> "priority" !in item ==> r.value.fields["priority"] == JStr("medium")
    ensures r.Some? ==> "tags" !in item ==> r.value.fields["tags"] == JArr([])
  {
    if "id" !in item || "title" !in item then None
    else
      Some(JObj(map[
        "id" := item["id"],
        "title" := item["title"],
        "description" := Get(item, "description").GetOr(JStr("")),
        "due_date" := Get(item, "due_date").GetOr(JNull),
        "is_completed" := Get(item, "is_completed").GetOr(JBool(false)),
        "priority" := Get(item, "priority").GetOr(JStr("medium")),
        "tags" := Get(item, "tags").GetOr(JArr([]))]))
  }

  /** `lambda_handler` for the TODO `id`. `schemaError` is the validator's message and
      `fault` the error `update_item` raises for a reason other than a missing item. The
      result is the response, the table afterwards, and the expression and value map passed
      to `update_item` when it is called. */
  method Handle(id: string, body: EventBody, schemaError: string, fault: Option<string>,
                table: map<string, map<string, Json>>)
    returns (r: Response, after: map<string, map<string, Json>>, call: Option<(string, map<string, Json>)>)
    ensures call.Some? <==> DecodeBody(body).Parsed? && UpdateSchemaValid(DecodeBody(body).value)
    ensures call.Some? ==> UpdateAssignments(DecodeBody(body).value.fields).Some?
                           && call.value.0 == Expression(UpdateAssignments(DecodeBody(body).value.fields).value)
                           && call.value.1 == ValuesOf(UpdateAssignments(DecodeBody(body).value.fields).value)
    ensures !DecodeBody(body).Parsed? ==> r == Unhandled && after == table
    ensures DecodeBody(body).Parsed? && !UpdateSchemaValid(DecodeBody(body).value) ==>
              r == Response(400, InvalidInput(schemaError)) && after == table
    ensures DecodeBody(body).Parsed? && UpdateSchemaValid(DecodeBody(body).value) ==>
              var fields := DecodeBody(body).value.fields;
              && (fault.Some? ==>
                    after == table
                    && r == Response(500, JObj(map["message" := JStr(ServerErrorMessage), "error" := JStr(fault.value)])))
              && (fault.None? && id !in table ==>
                    after == table && r == Response(404, JObj(map["message" := JStr(NotFoundMessage)])))
              && (fault.None? && id in table ==>
                    && after == table[id := Updated(table[id], fields)]
                    && (ResponseBody(after[id]).Some? && !HasNumber(ResponseBody(after[id]).value) ==>
                          r == Response(200, ResponseBody(after[id]).value))
                    && (ResponseBody(after[id]).None? || HasNumber(ResponseBody(after[id]).value) ==> r == Unhandled))
  {
    after, call := table, None;
    var decoded := DecodeBody(body);
    if !decoded.Parsed? {
      return Unhandled, after, call;
    }
    var request := decoded.value;
    if !UpdateSchemaValid(request) {
      return Response(400, InvalidInput(schemaError)), after, call;
    }
    SchemaAdmitsAssignments(request);
    var built := BuildUpdate(request.fields);
    if built.None? {
      assert false;
    }
    call := built;
    if fault.Some? {
      return Response(500, JObj(map["message" := JStr(ServerErrorMessage), "error" := JStr(fault.value)])), after, call;
    }
    if id !in table {
      return Response(404, JObj(map["message" := JStr(NotFoundMessage)])), after, call;
    }
    after := table[id := Updated(table[id], request.fields)];
    r := Respond(after[id]);
  }

  /** Builds the answer from the updated item; `json.dumps` of it raises when it holds a
      number. */
  method Respond(item: map<string, Json>) returns (r: Response)
    ensures ResponseBody(item).Some? && !HasNumber(ResponseBody(item).value) ==> r == Response(200, ResponseBody(item).value)
    ensures ResponseBody(item).None? || HasNumber(ResponseBody(item).value) ==> r == Unhandled
  {
    var responseBody := ResponseBody(item);
    if responseBody.None? || HasNumber(responseBody.value) {
      return Unhandled;
    }
    return Response(200, responseBody.value);
  }
}
