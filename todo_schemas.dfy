/** The JSON schemas the exercises1 TODO handlers validate request bodies against
    (`CreateTodo/schema.py` and `UpdateTodo/schema.py`), as predicates on the decoded body.
    `minLength`/`maxLength` count characters and apply to strings only; an `enum` accepts
    exactly its listed values. */
module TodoSchemas {
  import opened Strings
  import opened JsonValue

  /** The `date` format: `YYYY-MM-DD` with month 01-12 and day 01-31. */
  predicate IsDateFormat(s: string)
  {
    |s| == 10 && s[4] == '-' && s[7] == '-'
    && (forall i :: 0 <= i < 10 && i != 4 && i != 7 ==> IsAsciiDigit(s[i]))
    && ((s[5] == '0' && s[6] != '0') || (s[5] == '1' && '0' <= s[6] <= '2'))
    && ((s[8] == '0' && s[9] != '0') || s[8] == '1' || s[8] == '2' || (s[8] == '3' && '0' <= s[9] <= '1'))
  }

  const Priorities: set<string> := {"low", "medium", "high"}

  predicate TitleOk(v: Json) { v.JStr? && 1 <= |v.s| <= 100 }
  predicate DescriptionOk(v: Json) { v.JStr? && |v.s| <= 500 }
  predicate DueDateOk(v: Json) { v.JStr? && IsDateFormat(v.s) }
  predicate CompletedOk(v: Json) { v.JBool? }
  predicate PriorityOk(v: Json) { v.JStr? && v.s in Priorities }

  /** An array of at most 10 strings of at most 20 characters each. */
  predicate TagsOk(v: Json)
  {
    v.JArr? && |v.items| <= 10 && forall i :: 0 <= i < |v.items| ==> v.items[i].JStr? && |v.items[i].s| <= 20
  }

  /** The create schema: an object with a required `title`; every other listed property is
      optional, and unlisted properties are allowed. */
  predicate CreateSchemaValid(body: Json)
  {
    && body.JObj?
    && "title" in body.fields && TitleOk(body.fields["title"])
    && ("description" in body.fields ==> DescriptionOk(body.fields["description"]))
    && ("due_date" in body.fields ==> DueDateOk(body.fields["due_date"]))
    && ("is_completed" in body.fields ==> CompletedOk(body.fields["is_completed"]))
    && ("priority" in body.fields ==> PriorityOk(body.fields["priority"]))
    && ("tags" in body.fields ==> TagsOk(body.fields["tags"]))
  }

  const UpdateProperties: set<string> := {"title", "description", "due_date", "is_completed", "priority", "tags"}

  /** The update schema: an object of optional properties, no others. Each may be `null`
      except `priority`, whose `enum` sits beside the `anyOf` and so rejects `null`. */
  predicate UpdateSchemaValid(body: Json)
  {
    && body.JObj?
    && body.fields.Keys <= UpdateProperties
    && ("title" in body.fields ==> body.fields["title"] == JNull || TitleOk(body.fields["title"]))
    && ("description" in body.fields ==> body.fields["description"] == JNull || DescriptionOk(body.fields["description"]))
    && ("due_date" in body.fields ==> body.fields["due_date"] == JNull || DueDateOk(body.fields["due_date"]))
    && ("is_completed" in body.fields ==> body.fields["is_completed"] == JNull || CompletedOk(body.fields["is_completed"]))
    && ("priority" in body.fields ==> PriorityOk(body.fields["priority"]))
    && ("tags" in body.fields ==> body.fields["tags"] == JNull || TagsOk(body.fields["tags"]))
  }

  /** A title alone, of 1 to 100 characters, is a valid create request; 101 characters is
      not. */
  lemma CreateTitleBounds(title: string)
    ensures CreateSchemaValid(JObj(map["title" := JStr(title)])) <==> 1 <= |title| <= 100
  {
  }

  /** A description of 501 characters is rejected, whatever the title. */
  lemma CreateDescriptionTooLong(title: string, description: string)
    requires |description| == 501
    ensures !CreateSchemaValid(JObj(map["title" := JStr(title), "description" := JStr(description)]))
  {
    assert !DescriptionOk(JStr(description));
  }

  /** Eleven tags are rejected, whatever they are. */
  lemma CreateTooManyTags(title: string, tags: seq<Json>)
    requires |tags| == 11
    ensures !CreateSchemaValid(JObj(map["title" := JStr(title), "tags" := JArr(tags)]))
  {
    assert !TagsOk(JArr(tags));
  }

  /** A date written with slashes is rejected. */
  lemma CreateSlashDateRejected(title: string)
    ensures !CreateSchemaValid(JObj(map["title" := JStr(title), "due_date" := JStr("2025/04/10")]))
  {
    assert "2025/04/10"[4] == '/';
  }

  /** An update body may be empty, and every property may be `null` except `priority`. */
  lemma UpdateNulls()
    ensures UpdateSchemaValid(JObj(map[]))
    ensures UpdateSchemaValid(JObj(map["title" := JNull, "description" := JNull, "due_date" := JNull,
                                       "is_completed" := JNull, "tags" := JNull]))
    ensures !UpdateSchemaValid(JObj(map["priority" := JNull]))
  {
    var m := map["title" := JNull, "description" := JNull, "due_date" := JNull, "is_completed" := JNull, "tags" := JNull];
    assert m.Keys == {"title", "description", "due_date", "is_completed", "tags"};
  }

  /** An unknown property makes an update body invalid. */
  lemma UpdateUnknownRejected(body: map<string, Json>, key: string)
    requires key in body && key !in UpdateProperties
    ensures !UpdateSchemaValid(JObj(body))
  {
  }

  /** The update schema admits `is_completed` only as a boolean or `null`. */
  lemma UpdateCompletedIsBoolOrNull(body: Json)
    requires UpdateSchemaValid(body)
    ensures "is_completed" in body.fields ==> body.fields["is_completed"].JBool? || body.fields["is_completed"] == JNull
  {
  }
}
