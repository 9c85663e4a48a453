/** The lecture8 role update handler (`lecture8/services/RoleService/UpdateRole/app.py`):
    build a `SET` expression from the given `name`, `is_super_user` and
    `allowed_operations`, writing `name` through the alias "#name", and update the role if
    it exists. The role table is a map from role id to item attributes; what DynamoDB and
    its client library do with the request is modelled by `StoreUpdate`. */
module UpdateRoleHandler {
  import opened Wrappers
  import opened Strings
  import opened JsonValue
  import opened UpdateExpressions

  const NameAlias: string := "#name"
  const NoSuchRole: string := "No such role"
  const UpdateFailed: string := "Failed to update role"
  const HandlerFailed: string := "Failed to create role"
  const Updated: string := "Role updated successfully"

  /** The assignment for `name`, through its alias. */
  function NameAssignment(value: Json): Assignment
  {
    Assignment(NameAlias, "name", value)
  }

  /** The alias map for `name`. */
  const NameAliases: map<string, string> := map[NameAlias := "name"]

  /** The assignment for one field whose `body.get` is not `None`; none otherwise. */
  function Given(fields: map<string, Json>, f: string, a: Assignment): seq<Assignment>
  {
    if f in fields && fields[f] != JNull then [a] else []
  }

  /** The assignments the handler makes: each of the three fields whose `body.get` is not
      `None`, in the order name, is_super_user, allowed_operations. */
  function RoleAssignments(fields: map<string, Json>): (a: seq<Assignment>)
    ensures forall x :: x in a ==> WellNamed(x)
  {
    Given(fields, "name", NameAssignment(Get(fields, "name").GetOr(JNull)))
    + Given(fields, "is_super_user", Direct("is_super_user", Get(fields, "is_super_user").GetOr(JNull)))
    + Given(fields, "allowed_operations", Direct("allowed_operations", Get(fields, "allowed_operations").GetOr(JNull)))
  }

  /** Whether `name` is given, that is, not missing and not `null`. */
  predicate NameGiven(fields: map<string, Json>)
  {
    "name" in fields && fields["name"] != JNull
  }

  /** The three fields the handler writes. */
  predicate IsRoleField(f: string)
  {
    f == "name" || f == "is_super_user" || f == "allowed_operations"
  }

  /** Appends "#name = :name, ", stores the value under ":name" and the alias under
      "#name". */
  method AddName(value: Json, expr: string, values: map<string, Json>, names: map<string, string>, ghost done: seq<Assignment>)
    returns (expr': string, values': map<string, Json>, names': map<string, string>, ghost done': seq<Assignment>)
    requires expr == Pending(done) && values == ValuesOf(done)
    ensures done' == done + [NameAssignment(value)]
    ensures expr' == Pending(done') && values' == ValuesOf(done') && names' == names[NameAlias := "name"]
  {
    Step(done, NameAssignment(value));
    assert Clause(NameAssignment(value)) + ", " == "#name = :name, ";
    assert Placeholder("name") == ":name";
    expr' := expr + "#name = :name, ";
    values' := values[":name" := value];
    names' := names[NameAlias := "name"];
    done' := done + [NameAssignment(value)];
  }

  /** Appends the clause and value of `is_super_user` or `allowed_operations` when its
      `body.get` is not `None`. */
  method AddGivenField(fields: map<string, Json>, f: string, expr: string, values: map<string, Json>, ghost done: seq<Assignment>)
    returns (expr': string, values': map<string, Json>, ghost done': seq<Assignment>)
    requires expr == Pending(done) && values == ValuesOf(done)
    ensures var g := Given(fields, f, Direct(f, Get(fields, f).GetOr(JNull)));
            expr' == Pending(done + g) && values' == ValuesOf(done + g)
    ensures done' == done + Given(fields, f, Direct(f, Get(fields, f).GetOr(JNull)))
  {
    expr', values', done' := expr, values, done;
    var value := Get(fields, f);
    if value.Some? && value.value != JNull {
      expr', values', done' := AddClause(f, value.value, expr, values, done);
    } else {
      assert done + Given(fields, f, Direct(f, Get(fields, f).GetOr(JNull))) == done;
    }
  }

  /** Builds the expression, the value map and the alias map step by step, as the handler
      does. */
  method BuildUpdate(fields: map<string, Json>) returns (expression: string, values: map<string, Json>, names: map<string, string>)
    ensures expression == Expression(RoleAssignments(fields))
    ensures values == ValuesOf(RoleAssignments(fields))
    ensures names == if NameGiven(fields) then NameAliases else map[]
  {
    var expr := "SET ";
    values, names := map[], map[];
    ghost var done: seq<Assignment> := [];
    var name := Get(fields, "name");
    if name.Some? && name.value != JNull {
      expr, values, names, done := AddName(name.value, expr, values, names, done);
    }
    assert done == Given(fields, "name", NameAssignment(Get(fields, "name").GetOr(JNull)));
    expr, values, done := AddGivenField(fields, "is_super_user", expr, values, done);
    expr, values, done := AddGivenField(fields, "allowed_operations", expr, values, done);
    assert done == RoleAssignments(fields);
    StrippedIsExpression(fields);
    expression := RStrip(expr, SeparatorChars);
  }

  /** The `rstrip(", ")` of the pending text is the finished expression. */
  lemma StrippedIsExpression(fields: map<string, Json>)
    ensures RStrip(Pending(RoleAssignments(fields)), SeparatorChars) == Expression(RoleAssignments(fields))
  {
  }

  /** With no field given the expression is the bare "SET" and the value map is empty. */
  lemma NoFieldsGiveBareSet(fields: map<string, Json>)
    requires forall f :: IsRoleField(f) ==> f !in fields || fields[f] == JNull
    ensures Expression(RoleAssignments(fields)) == "SET"
    ensures ValuesOf(RoleAssignments(fields)) == map[]
  {
    assert IsRoleField("name") && IsRoleField("is_super_user") && IsRoleField("allowed_operations");
  }

  /** How the `ExpressionAttributeNames` argument reaches the client library: left out, the
      Python value `None`, or a map. */
  datatype NamesArgument = Omitted | NoneValue | Names(aliases: map<string, string>)

  /** What `update_item` does with a request. */
  datatype StoreOutcome =
    | ParamRejected        // the client library refuses `None` where a map is expected
    | Invalid              // DynamoDB refuses the request: an empty expression, value map or alias map
    | Failed(error: string)
    | Missing              // `attribute_exists(role_id)` fails
    | Done(table: map<string, map<string, Json>>)

  /** The outcome of `update_item` for the assignments behind the expression, the alias
      argument and an external `fault`, in the order the checks happen: client-side
      parameter validation, request validation, other failures, the existence condition. */
  function StoreUpdate(table: map<string, map<string, Json>>, roleId: string, assignments: seq<Assignment>,
                       namesArg: NamesArgument, fault: Option<string>): (o: StoreOutcome)
    ensures o.ParamRejected? <==> namesArg.NoneValue?
    ensures o.Done? <==> !namesArg.NoneValue? && |assignments| > 0 && namesArg != Names(map[]) && fault.None? && roleId in table
    ensures o.Done? ==> roleId in table
                        && o.table == table[roleId := Apply(table[roleId], assignments, if namesArg.Names? then namesArg.aliases else map[])]
  {
    if namesArg.NoneValue? then ParamRejected
    else if |assignments| == 0 || namesArg == Names(map[]) then Invalid
    else if fault.Some? then Failed(fault.value)
    else if roleId !in table then Missing
    else Done(table[roleId := Apply(table[roleId], assignments, if namesArg.Names? then namesArg.aliases else map[])])
  }

  /** `expression_attribute_names or None`, as written: an empty alias map becomes `None`. */
  function AsWrittenNamesArgument(names: map<string, string>): (arg: NamesArgument)
    ensures |names| == 0 ==> arg == NoneValue
    ensures |names| > 0 ==> arg == Names(names)
  {
    if |names| > 0 then Names(names) else NoneValue
  }

  /** The argument the code evidently means: the alias map when there is one, otherwise no
      argument at all. */
  function NamesArgumentFor(names: map<string, string>): (arg: NamesArgument)
    ensures |names| == 0 ==> arg == Omitted
    ensures |names| > 0 ==> arg == Names(names)
  {
    if |names| > 0 then Names(names) else Omitted
  }

  /** As written, an update that does not change `name` is refused by the client library for
      every existing role, although it has something to write. */
  lemma AsWrittenRejectsUpdateWithoutName(table: map<string, map<string, Json>>, roleId: string, fields: map<string, Json>)
    requires roleId in table && !NameGiven(fields)
    requires "is_super_user" in fields && fields["is_super_user"] != JNull
    ensures |RoleAssignments(fields)| > 0
    ensures StoreUpdate(table, roleId, RoleAssignments(fields), AsWrittenNamesArgument(map[]), None) == ParamRejected
  {
  }

  /** With the argument left out, the same update succeeds, and with a `name` the alias
      argument is passed; so every update with at least one field reaches the table. */
  lemma IntendedUpdateSucceeds(table: map<string, map<string, Json>>, roleId: string, fields: map<string, Json>)
    requires roleId in table && |RoleAssignments(fields)| > 0
    ensures StoreUpdate(table, roleId, RoleAssignments(fields),
                        NamesArgumentFor(if NameGiven(fields) then NameAliases else map[]), None).Done?
  {
  }

  /** After a successful update, each given field holds its value (`name` written through
      its alias), and every other attribute is unchanged. */
  lemma UpdatedRole(item: map<string, Json>, fields: map<string, Json>)
    ensures var names := if NameGiven(fields) then NameAliases else map[];
            var r := Apply(item, RoleAssignments(fields), names);
            && (forall f :: IsRoleField(f) && f in fields && fields[f] != JNull ==> f in r && r[f] == fields[f])
            && (forall k :: !IsRoleField(k) || k !in fields || fields[k] == JNull ==>
                  (k in r <==> k in item) && (k in item ==> r[k] == item[k]))
  {
    var names := if NameGiven(fields) then NameAliases else map[];
    var a := RoleAssignments(fields);
    forall i | 0 <= i < |a|
      ensures IsRoleField(Target(a[i], names)) && Target(a[i], names) in fields
              && fields[Target(a[i], names)] != JNull && fields[Target(a[i], names)] == a[i].value
    {
      assert a[i] in a;
    }
    forall f | IsRoleField(f) && f in fields && fields[f] != JNull
      ensures f in Apply(item, a, names) && Apply(item, a, names)[f] == fields[f]
    {
      var i: int;
      if f == "name" { i := 0; }
      else if f == "is_super_user" { i := if NameGiven(fields) then 1 else 0; }
      else { i := |a| - 1; }
      assert Target(a[i], names) == f;
      ApplySets(item, a, names, i);
    }
    forall k | !IsRoleField(k) || k !in fields || fields[k] == JNull
      ensures (k in Apply(item, a, names) <==> k in item) && (k in item ==> Apply(item, a, names)[k] == item[k])
    {
      ApplyKeeps(item, a, names, k);
    }
  }

  /** The `update_item` call and the answer built from its outcome (`app.py` lines 50-81):
      the updated table and 200, 404 for a missing role, 500 for every other failure. */
  method ApplyUpdate(roleId: string, fields: map<string, Json>, namesArg: NamesArgument, fault: Option<string>,
                     table: map<string, map<string, Json>>)
    returns (r: Response, after: map<string, map<string, Json>>)
    ensures match StoreUpdate(table, roleId, RoleAssignments(fields), namesArg, fault)
            case Done(t) =>
              after == t && r == Response(200, JObj(map["message" := JStr(Updated), "role_id" := JStr(roleId)]))
            case Missing => after == table && r == Response(404, JObj(map["error" := JStr(NoSuchRole)]))
            case _ => after == table && r == Response(500, JObj(map["error" := JStr(UpdateFailed)]))
  {
    after := table;
    match StoreUpdate(table, roleId, RoleAssignments(fields), namesArg, fault)
    case Done(t) =>
      after := t;
      r := Response(200, JObj(map["message" := JStr(Updated), "role_id" := JStr(roleId)]));
    case Missing =>
      r := Response(404, JObj(map["error" := JStr(NoSuchRole)]));
    case _ =>
      r := Response(500, JObj(map["error" := JStr(UpdateFailed)]));
  }

  /** `lambda_handler` for role `roleId` as written: line 56 passes
      `expression_attribute_names or None`, so every update that does not change `name` is
      refused by the client library and answered with 500 "Failed to update role". */
  method AsWrittenHandle(roleId: string, body: EventBody, fault: Option<string>, table: map<string, map<string, Json>>)
    returns (r: Response, after: map<string, map<string, Json>>, call: Option<(string, map<string, Json>, NamesArgument)>)
    ensures call.Some? <==> DecodeBody(body).Parsed? && DecodeBody(body).value.JObj?
    ensures call.Some? ==>
              var fields := DecodeBody(body).value.fields;
              call.value == (Expression(RoleAssignments(fields)), ValuesOf(RoleAssignments(fields)),
                             AsWrittenNamesArgument(if NameGiven(fields) then NameAliases else map[]))
    ensures !(DecodeBody(body).Parsed? && DecodeBody(body).value.JObj?) ==>
              r == Response(500, JObj(map["error" := JStr(HandlerFailed)])) && after == table
    ensures DecodeBody(body).Parsed? && DecodeBody(body).value.JObj? && !NameGiven(DecodeBody(body).value.fields) ==>
              r == Response(500, JObj(map["error" := JStr(UpdateFailed)])) && after == table
    ensures DecodeBody(body).Parsed? && DecodeBody(body).value.JObj? && NameGiven(DecodeBody(body).value.fields) ==>
              var fields := DecodeBody(body).value.fields;
              match StoreUpdate(table, roleId, RoleAssignments(fields), Names(NameAliases), fault)
              case Done(t) =>
                after == t && r == Response(200, JObj(map["message" := JStr(Updated), "role_id" := JStr(roleId)]))
              case Missing => after == table && r == Response(404, JObj(map["error" := JStr(NoSuchRole)]))
              case _ => after == table && r == Response(500, JObj(map["error" := JStr(UpdateFailed)]))
  {
    after, call := table, None;
    var decoded := DecodeBody(body);
    if !decoded.Parsed? || !decoded.value.JObj? {
      return Response(500, JObj(map["error" := JStr(HandlerFailed)])), after, call;
    }
    var fields := decoded.value.fields;
    var expression, values, names := BuildUpdate(fields);
    call := Some((expression, values, AsWrittenNamesArgument(names)));
    r, after := ApplyUpdate(roleId, fields, AsWrittenNamesArgument(names), fault, table);
  }

  /** `lambda_handler` for role `roleId`, with line 56 corrected to leave the alias argument
      out when there is no alias (the as-written handler is `AsWrittenHandle`). `fault` is the
      error `update_item` raises for a reason of its own. The result is the response, the
      table afterwards, and the expression, value map and alias argument passed to
      `update_item` when it is called. */
  method Handle(roleId: string, body: EventBody, fault: Option<string>, table: map<string, map<string, Json>>)
    returns (r: Response, after: map<string, map<string, Json>>, call: Option<(string, map<string, Json>, NamesArgument)>)
    ensures call.Some? <==> DecodeBody(body).Parsed? && DecodeBody(body).value.JObj?
    ensures call.Some? ==>
              var fields := DecodeBody(body).value.fields;
              call.value == (Expression(RoleAssignments(fields)), ValuesOf(RoleAssignments(fields)),
                             NamesArgumentFor(if NameGiven(fields) then NameAliases else map[]))
    ensures !(DecodeBody(body).Parsed? && DecodeBody(body).value.JObj?) ==>
              r == Response(500, JObj(map["error" := JStr(HandlerFailed)])) && after == table
    ensures DecodeBody(body).Parsed? && DecodeBody(body).value.JObj? ==>
              var fields := DecodeBody(body).value.fields;
              var names := if NameGiven(fields) then NameAliases else map[];
              match StoreUpdate(table, roleId, RoleAssignments(fields), NamesArgumentFor(names), fault)
              case Done(t) =>
                after == t && r == Response(200, JObj(map["message" := JStr(Updated), "role_id" := JStr(roleId)]))
              case Missing => after == table && r == Response(404, JObj(map["error" := JStr(NoSuchRole)]))
              case _ => after == table && r == Response(500, JObj(map["error" := JStr(UpdateFailed)]))
  {
    after, call := table, None;
    var decoded := DecodeBody(body);
    if !decoded.Parsed? || !decoded.value.JObj? {
      return Response(500, JObj(map["error" := JStr(HandlerFailed)])), after, call;
    }
    var fields := decoded.value.fields;
    var expression, values, names := BuildUpdate(fields);
    call := Some((expression, values, NamesArgumentFor(names)));
    r, after := ApplyUpdate(roleId, fields, NamesArgumentFor(names), fault, table);
  }
}
