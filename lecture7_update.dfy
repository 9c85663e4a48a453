/** The lecture7 TODO update handler (`lecture7/services/TodoService/UpdateTodo/app.py`):
    the item is keyed by the caller and "todo#" + id; every listed field present in the body
    is written (a `null` included), `is_completed` is always written, and the answer carries
    the id without its prefix. The request schema is not part of this model: its verdict is
    an input. */
module Lecture7UpdateTodo {
  import opened Wrappers
  import opened Strings
  import opened JsonValue
  import opened UpdateExpressions

  const TodoPrefix: string := "todo#"
  const InvalidInputMessage: string := "入力が無効です"
  const NotFoundMessage: string := "指定されたTODOが見つかりません"
  const ServerErrorMessage: string := "サーバー内部エラー"

  /** The fields copied from the body when present, in order. */
  const FieldList: seq<string> := ["title", "description", "due_date", "priority", "tags"]

  /** The storage key of a TODO: the caller's principal and the prefixed id. */
  function TodoKey(userId: string, rawId: string): (string, string)
  {
    (userId, TodoPrefix + rawId)
  }

  /** Removing the prefix from a stored `todo_id` gives back the id of the path. */
  lemma TodoIdRoundTrip(rawId: string)
    ensures RemovePrefix(TodoPrefix + rawId, TodoPrefix) == rawId
  {
    assert StartsWith(TodoPrefix + rawId, TodoPrefix);
  }

  /** The assignments for the listed fields that are keys of the body, in list order. */
  function Present(fields: map<string, Json>, list: seq<string>): (r: seq<Assignment>)
    ensures forall x :: x in r ==> x.ref == x.name && x.name in list && x.name in fields && x.value == fields[x.name]
    decreases |list|
  {
    if |list| == 0 then []
    else
      var f := list[|list| - 1];
      Present(fields, list[..|list| - 1]) + (if f in fields then [Direct(f, fields[f])] else [])
  }

  /** A listed field is written exactly when it is a key of the body. */
  lemma {:induction false} PresentIff(fields: map<string, Json>, list: seq<string>, f: string)
    requires f in list
    ensures (exists x :: x in Present(fields, list) && x.name == f) <==> f in fields
    decreases |list|
  {
    var last := list[|list| - 1];
    var init := list[..|list| - 1];
    if f in fields {
      if f == last {
        assert Direct(f, fields[f]) in Present(fields, list);
      } else {
        assert f in init by { assert list == init + [last]; }
        PresentIff(fields, init, f);
        var x :| x in Present(fields, init) && x.name == f;
        assert x in Present(fields, list);
      }
    }
  }

  /** `is_completed` is written as the given boolean, or `False` for anything else. */
  function Completed(fields: map<string, Json>): (v: Json)
    ensures v.JBool?
    ensures "is_completed" in fields && fields["is_completed"].JBool? ==> v == fields["is_completed"]
    ensures !("is_completed" in fields && fields["is_completed"].JBool?) ==> v == JBool(false)
  {
    var c := Get(fields, "is_completed");
    if c.Some? && c.value.JBool? then c.value else JBool(false)
  }

  /** The assignments the handler makes. */
  function Assignments(fields: map<string, Json>): seq<Assignment>
  {
    Present(fields, FieldList) + [Direct("is_completed", Completed(fields))]
  }

  /** The expression lists one clause per listed field present in the body, in list order,
      then `is_completed`; every placeholder is a key of the value map, and `todo_id` and
      `user_id` are never written. */
  lemma AssignmentsShape(fields: map<string, Json>)
    ensures var a := Assignments(fields);
            && |a| >= 1 && a[|a| - 1] == Direct("is_completed", Completed(fields))
            && (forall x :: x in a ==> x.ref == x.name && WellNamed(x) && x.name != "todo_id" && x.name != "user_id")
            && (forall f :: f in FieldList ==> ((exists x :: x in a && x.name == f) <==> f in fields))
  {
    var a := Assignments(fields);
    forall f | f in FieldList
      ensures (exists x :: x in a && x.name == f) <==> f in fields
    {
      PresentIff(fields, FieldList, f);
      if exists x :: x in a && x.name == f {
        var x :| x in a && x.name == f;
        assert x in Present(fields, FieldList);
      }
    }
  }

  /** `add_update_expr` over the listed fields present in the body, then `is_completed`,
      then `rstrip(", ")`. */
  method BuildUpdate(fields: map<string, Json>) returns (expression: string, values: map<string, Json>)
    ensures expression == Expression(Assignments(fields))
    ensures values == ValuesOf(Assignments(fields))
  {
    var expr := "SET ";
    values := map[];
    ghost var done: seq<Assignment> := [];
    for i := 0 to |FieldList|
      invariant done == Present(fields, FieldList[..i])
      invariant expr == Pending(done) && values == ValuesOf(done)
    {
      var field := FieldList[i];
      assert FieldList[..i + 1][..i] == FieldList[..i];
      if field in fields {
        expr, values, done := AddClause(field, fields[field], expr, values, done);
      }
    }
    assert FieldList[..|FieldList|] == FieldList;
    var isCompleted := Get(fields, "is_completed");
    if isCompleted.Some? && isCompleted.value.JBool? {
      expr, values, done := AddClause("is_completed", isCompleted.value, expr, values, done);
    } else {
      expr, values, done := AddClause("is_completed", JBool(false), expr, values, done);
    }
    AssignmentsShape(fields);
    expression := RStrip(expr, SeparatorChars);
  }

  /** Every stored item holds its two key attributes. */
  predicate HoldsKey(key: (string, string), item: map<string, Json>)
  {
    "user_id" in item && item["user_id"] == JStr(key.0) && "todo_id" in item && item["todo_id"] == JStr(key.1)
  }

  /** The stored item after the update. */
  function Updated(item: map<string, Json>, fields: map<string, Json>): map<string, Json>
  {
    Apply(item, Assignments(fields), map[])
  }

  /** The update keeps the key attributes of the item. */
  lemma UpdatedHoldsKey(key: (string, string), item: map<string, Json>, fields: map<string, Json>)
    requires HoldsKey(key, item)
    ensures HoldsKey(key, Updated(item, fields))
  {
    AssignmentsShape(fields);
    var a := Assignments(fields);
    forall i | 0 <= i < |a| ensures Target(a[i], map[]) != "user_id" && Target(a[i], map[]) != "todo_id" {
      assert a[i] in a;
    }
    ApplyKeeps(item, a, map[], "user_id");
    ApplyKeeps(item, a, map[], "todo_id");
  }

  /** Every item of the table still holds its key after one item is updated. */
  lemma UpdateKeepsKeys(table: map<(string, string), map<string, Json>>, key: (string, string), fields: map<string, Json>)
    requires forall k :: k in table ==> HoldsKey(k, table[k])
    requires key in table
    ensures var after := table[key := Updated(table[key], fields)];
            forall k :: k in after ==> HoldsKey(k, after[k])
  {
    UpdatedHoldsKey(key, table[key], fields);
  }

  /** The 200 answer body: the updated item with the prefix removed from `todo_id`. */
  function Answer(rawId: string, item: map<string, Json>): (r: Json)
    ensures r.JObj? && "todo_id" in r.fields && r.fields["todo_id"] == JStr(rawId)
    ensures forall k :: k in item && k != "todo_id" ==> k in r.fields && r.fields[k] == item[k]
  {
    TodoIdRoundTrip(rawId);
    JObj(item["todo_id" := JStr(RemovePrefix(TodoPrefix + rawId, TodoPrefix))])
  }

  /** The answer to a successful update: the item with the prefix removed from `todo_id`,
      or 500 when `json.dumps` meets a number (a `Decimal`). */
  function Reply(rawId: string, updated: map<string, Json>): (r: Response)
    ensures r.Response? && r.statusCode in {200, 500}
    ensures r.statusCode == 200 <==> !HasNumber(Answer(rawId, updated))
    ensures r.statusCode == 200 ==> r.body == Answer(rawId, updated)
  {
    if HasNumber(Answer(rawId, updated)) then
      Response(500, JObj(map["message" := JStr(ServerErrorMessage), "error" := JStr(DecimalNotSerializable)]))
    else Response(200, Answer(rawId, updated))
  }

  /** `lambda_handler` for TODO `rawId` of caller `userId`. `schemaAccepts` is the verdict of
      the request schema, `errorText` the message of the exception that rejects the body,
      and `fault` the error `update_item` raises for a reason other than a missing item. The
      result is the response, the table afterwards, and the expression and value map passed
      to `update_item` when it is called. */
  method Handle(rawId: string, userId: string, body: EventBody, schemaAccepts: bool, errorText: string,
                fault: Option<string>, table: map<(string, string), map<string, Json>>)
    returns (r: Response, after: map<(string, string), map<string, Json>>, call: Option<(string, map<string, Json>)>)
    requires forall key :: key in table ==> HoldsKey(key, table[key])
    ensures call.Some? <==> DecodeBody(body).Parsed? && schemaAccepts && DecodeBody(body).value.JObj?
    ensures forall key :: key in after ==> HoldsKey(key, after[key])
    ensures !DecodeBody(body).Parsed? || !schemaAccepts ==>
              r == Response(400, JObj(map["message" := JStr(InvalidInputMessage), "error" := JStr(errorText)])) && after == table
    ensures DecodeBody(body).Parsed? && schemaAccepts && !DecodeBody(body).value.JObj? ==> r == Unhandled && after == table
    ensures DecodeBody(body).Parsed? && schemaAccepts && DecodeBody(body).value.JObj? ==>
              var fields := DecodeBody(body).value.fields;
              var key := TodoKey(userId, rawId);
              && call == Some((Expression(Assignments(fields)), ValuesOf(Assignments(fields))))
              && (fault.Some? ==>
                    after == table
                    && r == Response(500, JObj(map["message" := JStr(ServerErrorMessage), "error" := JStr(fault.value)])))
              && (fault.None? && key !in table ==>
                    after == table && r == Response(404, JObj(map["message" := JStr(NotFoundMessage)])))
              && (fault.None? && key in table ==>
                    after == table[key := Updated(table[key], fields)] && r == Reply(rawId, after[key]))
  {
    after, call := table, None;
    var decoded := DecodeBody(body);
    if !decoded.Parsed? || !schemaAccepts {
      return Response(400, JObj(map["message" := JStr(InvalidInputMessage), "error" := JStr(errorText)])), after, call;
    }
    if !decoded.value.JObj? {
      return Unhandled, after, call;
    }
    r, after, call := UpdateItem(rawId, userId, decoded.value.fields, fault, table);
  }

  /** The part of the handler after the body is accepted: build the update, run it against
      the table, and answer. */
  method UpdateItem(rawId: string, userId: string, fields: map<string, Json>, fault: Option<string>,
                    table: map<(string, string), map<string, Json>>)
    returns (r: Response, after: map<(string, string), map<string, Json>>, call: Option<(string, map<string, Json>)>)
    requires forall key :: key in table ==> HoldsKey(key, table[key])
    ensures forall key :: key in after ==> HoldsKey(key, after[key])
    ensures call == Some((Expression(Assignments(fields)), ValuesOf(Assignments(fields))))
    ensures fault.Some? ==>
              after == table
              && r == Response(500, JObj(map["message" := JStr(ServerErrorMessage), "error" := JStr(fault.value)]))
    ensures fault.None? && TodoKey(userId, rawId) !in table ==>
              after == table && r == Response(404, JObj(map["message" := JStr(NotFoundMessage)]))
    ensures fault.None? && TodoKey(userId, rawId) in table ==>
              var key := TodoKey(userId, rawId);
              after == table[key := Updated(table[key], fields)] && r == Reply(rawId, after[key])
  {
    after := table;
    var todoId := TodoPrefix + rawId;
    var expression, values := BuildUpdate(fields);
    call := Some((expression, values));
    if fault.Some? {
      return Response(500, JObj(map["message" := JStr(ServerErrorMessage), "error" := JStr(fault.value)])), after, call;
    }
    var key := (userId, todoId);
    if key !in table {
      return Response(404, JObj(map["message" := JStr(NotFoundMessage)])), after, call;
    }
    after := table[key := Updated(table[key], fields)];
    UpdateKeepsKeys(table, key, fields);
    r := Respond(rawId, userId, after[key]);
  }

  /** Serialises the updated item for the answer. */
  method Respond(rawId: string, userId: string, updated: map<string, Json>) returns (r: Response)
    requires HoldsKey(TodoKey(userId, rawId), updated)
    ensures r == Reply(rawId, updated)
  {
    var answer := JObj(updated["todo_id" := JStr(RemovePrefix(updated["todo_id"].s, TodoPrefix))]);
    assert answer == Answer(rawId, updated);
    if HasNumber(answer) {
      return Response(500, JObj(map["message" := JStr(ServerErrorMessage), "error" := JStr(DecimalNotSerializable)]));
    }
    return Response(200, answer);
  }
}
