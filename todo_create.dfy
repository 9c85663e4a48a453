/** The exercises1 TODO create handler (`exercises1/backend/todo_service/CreateTodo/app.py`):
    validate the body against the create schema, fill in the defaults, store the item under
    a fresh id and answer 201 with the item. The fresh id (`uuid4`) and the outcome of
    `put_item` are inputs; the table is a map from id to item attributes. */
module CreateTodoHandler {
  import opened Wrappers
  import opened JsonValue
  import opened TodoSchemas

  const InvalidInputMessage: string := "入力が無効です"
  const CreatedMessage: string := "アイテムが作成されました"
  const ServerErrorMessage: string := "サーバー内部エラー"

  /** The stored item: the given fields, with `description` "", `due_date` null,
      `is_completed` false, `priority` "medium" and `tags` [] for the missing ones. */
  function NewItem(todoId: string, fields: map<string, Json>): (item: map<string, Json>)
    requires "title" in fields
    ensures item.Keys == {"id", "title", "description", "due_date", "is_completed", "priority", "tags"}
    ensures item["id"] == JStr(todoId) && item["title"] == fields["title"]
    ensures forall k :: k in item && k != "id" && k in fields ==> item[k] == fields[k]
    ensures "description" !in fields ==> item["description"] == JStr("")
    ensures "due_date" !in fields ==> item["due_date"] == JNull
    ensures "is_completed" !in fields ==> item["is_completed"] == JBool(false)
    ensures "priority" !in fields ==> item["priority"] == JStr("medium")
    ensures "tags" !in fields ==> item["tags"] == JArr([])
  {
    map[
      "id" := JStr(todoId),
      "title" := fields["title"],
      "description" := Get(fields, "description").GetOr(JStr("")),
      "due_date" := Get(fields, "due_date").GetOr(JNull),
      "is_completed" := Get(fields, "is_completed").GetOr(JBool(false)),
      "priority" := Get(fields, "priority").GetOr(JStr("medium")),
      "tags" := Get(fields, "tags").GetOr(JArr([]))]
  }

  /** `lambda_handler`: the response and the table afterwards. `schemaError` is the
      validator's message, `todoId` the generated id and `fault` the error `put_item` raises,
      if any. */
  function Handle(body: EventBody, schemaError: string, todoId: string, fault: Option<string>,
                  table: map<string, map<string, Json>>): (out: (Response, map<string, map<string, Json>>))
    ensures !DecodeBody(body).Parsed? ==> out == (Unhandled, table)
    ensures DecodeBody(body).Parsed? && !CreateSchemaValid(DecodeBody(body).value) ==>
              out == (Response(400, JObj(map["message" := JStr(InvalidInputMessage), "error" := JStr(schemaError)])), table)
    ensures DecodeBody(body).Parsed? && CreateSchemaValid(DecodeBody(body).value) && fault.Some? ==>
              out == (Response(500, JObj(map["message" := JStr(ServerErrorMessage), "error" := JStr(fault.value)])), table)
    ensures DecodeBody(body).Parsed? && CreateSchemaValid(DecodeBody(body).value) && fault.None? ==>
              var item := NewItem(todoId, DecodeBody(body).value.fields);
              && out.1 == table[todoId := item]
              && out.0.Response? && out.0.statusCode == 201 && out.0.body.JObj?
              && out.0.body.fields == item["message" := JStr(CreatedMessage)]
  {
    match DecodeBody(body)
    case Parsed(request) =>
      if !CreateSchemaValid(request) then
        (Response(400, JObj(map["message" := JStr(InvalidInputMessage), "error" := JStr(schemaError)])), table)
      else
        var item := NewItem(todoId, request.fields);
        if fault.Some? then
          (Response(500, JObj(map["message" := JStr(ServerErrorMessage), "error" := JStr(fault.value)])), table)
        else
          (Response(201, JObj(item["message" := JStr(CreatedMessage)])), table[todoId := item])
    case _ => (Unhandled, table)
  }

  /** A stored item satisfies the create schema again: it has a valid title, and every
      default is a value the schema admits (a `null` `due_date` aside). */
  lemma StoredItemValid(todoId: string, fields: map<string, Json>)
    requires CreateSchemaValid(JObj(fields))
    ensures var item := NewItem(todoId, fields);
            && TitleOk(item["title"]) && DescriptionOk(item["description"]) && CompletedOk(item["is_completed"])
            && PriorityOk(item["priority"]) && TagsOk(item["tags"])
            && (item["due_date"] == JNull || DueDateOk(item["due_date"]))
  {
  }

  /** A request with only a title creates a TODO with the defaults, answered with 201 and
      stored under the new id. */
  lemma MinimalCreate(title: string, todoId: string, table: map<string, map<string, Json>>)
    requires 1 <= |title| <= 100
    ensures var out := Handle(Text(Some(JObj(map["title" := JStr(title)]))), "", todoId, None, table);
            && out.0.Response? && out.0.statusCode == 201
            && out.0.body.fields["title"] == JStr(title)
            && out.0.body.fields["is_completed"] == JBool(false)
            && out.0.body.fields["priority"] == JStr("medium")
            && out.0.body.fields["tags"] == JArr([])
            && out.0.body.fields["description"] == JStr("")
            && todoId in out.1 && out.1[todoId]["id"] == JStr(todoId)
  {
    CreateTitleBounds(title);
  }
}
