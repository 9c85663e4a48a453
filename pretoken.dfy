/** The Cognito pre-token-generation trigger of lecture7
    (`lecture7/services/Cognito/PreTokenGeneration/app.py`): it looks up the caller's role and
    adds the role, the super-user flag and the allowed operations to the ID token's claims.
    The event is a JSON object; the role table is a map from role id to item. */
module PreTokenGeneration {
  import opened Wrappers
  import opened Strings
  import opened JsonValue

  /** `",".join(ops)`: a list of strings joined with commas, or the characters of a string
      joined with commas (Python iterates a string by character); `None` where `join`
      raises a `TypeError`. */
  function CommaJoin(ops: Json): (r: Option<string>)
    ensures ops.JArr? ==> (r.Some? <==> JsonValue.Strings(ops.items).Some?)
    ensures ops.JArr? && r.Some? ==> r.value == Join(JsonValue.Strings(ops.items).value, ",")
    ensures !ops.JArr? && !ops.JStr? ==> r.None?
  {
    match ops
    case JArr(items) => if JsonValue.Strings(items).Some? then Some(Join(JsonValue.Strings(items).value, ",")) else None
    case JStr(s) => Some(Join(seq(|s|, i requires 0 <= i < |s| => [s[i]]), ","))
    case _ => None
  }

  /** The claims the trigger asks Cognito to add: `role` and `is_super_user` always, and the
      comma-joined `allowed_operations` only for a role that is not a super user and has a
      non-empty list. `None` where the join raises. */
  function Claims(roleId: string, role: map<string, Json>): (r: Option<map<string, Json>>)
    ensures r.Some? ==> "role" in r.value && r.value["role"] == JStr(roleId)
    ensures r.Some? ==> "is_super_user" in r.value && r.value["is_super_user"] == (if "is_super_user" in role then role["is_super_user"] else JBool(false))
    ensures r.Some? ==> ("allowed_operations" in r.value <==>
                           "allowed_operations" in role && Truthy(role["allowed_operations"])
                           && !("is_super_user" in role && Truthy(role["is_super_user"])))
    ensures r.Some? ==> r.value.Keys <= {"role", "is_super_user", "allowed_operations"}
    ensures r.None? ==> "allowed_operations" in role && Truthy(role["allowed_operations"])
  {
    var isSuperUser := if "is_super_user" in role then role["is_super_user"] else JBool(false);
    var allowed := if "allowed_operations" in role then role["allowed_operations"] else JArr([]);
    var claims := map["role" := JStr(roleId), "is_super_user" := isSuperUser];
    if !Truthy(isSuperUser) && Truthy(allowed) then
      match CommaJoin(allowed)
      case None => None
      case Some(joined) => Some(claims["allowed_operations" := JStr(joined)])
    else Some(claims)
  }

  /** The user attributes of a trigger event: `event["request"]["userAttributes"]`, if that
      path exists and leads to an object. */
  function UserAttributes(event: map<string, Json>): Option<map<string, Json>>
  {
    if "request" in event && event["request"].JObj? && "userAttributes" in event["request"].fields
       && event["request"].fields["userAttributes"].JObj?
    then Some(event["request"].fields["userAttributes"].fields)
    else None
  }

  /** The `response` the trigger writes. */
  function ResponseFor(claims: map<string, Json>): Json
  {
    JObj(map["claimsOverrideDetails" := JObj(map["claimsToAddOrOverride" := JObj(claims)])])
  }

  /** `lambda_handler`: the event returned to Cognito, or `None` where the trigger raises (no
      user attributes, a missing or empty `custom:role`, a role id that is not a string, a
      failed table read, or a join over something other than strings). The event comes back
      with only its `response` replaced. */
  function Handle(event: map<string, Json>, roles: map<string, map<string, Json>>, fault: bool): (r: Option<map<string, Json>>)
    ensures r.Some? ==> UserAttributes(event).Some?
    ensures UserAttributes(event).Some? && !Truthy(Get(UserAttributes(event).value, "custom:role").GetOr(JNull)) ==> r.None?
    ensures fault ==> r.None?
    ensures r.Some? ==> r.value.Keys == event.Keys + {"response"}
                        && forall k :: k in event && k != "response" ==> r.value[k] == event[k]
    ensures r.Some? ==>
              var roleId := UserAttributes(event).value["custom:role"];
              && roleId.JStr?
              && Claims(roleId.s, if roleId.s in roles then roles[roleId.s] else map[]).Some?
              && r.value["response"] == ResponseFor(Claims(roleId.s, if roleId.s in roles then roles[roleId.s] else map[]).value)
  {
    match UserAttributes(event)
    case None => None
    case Some(attributes) =>
      var roleId := Get(attributes, "custom:role").GetOr(JNull);
      if !Truthy(roleId) || !roleId.JStr? || fault then None
      else
        var role := if roleId.s in roles then roles[roleId.s] else map[];
        match Claims(roleId.s, role)
        case None => None
        case Some(claims) => Some(event["response" := ResponseFor(claims)])
  }

  /** A role without an item in the table is not a super user and gets no operations. */
  lemma MissingRoleItem(event: map<string, Json>, roles: map<string, map<string, Json>>, roleId: string)
    requires UserAttributes(event) == Some(map["custom:role" := JStr(roleId)])
    requires roleId != "" && roleId !in roles
    ensures Handle(event, roles, false) == Some(event["response" := ResponseFor(map["role" := JStr(roleId), "is_super_user" := JBool(false)])])
  {
    assert Get(UserAttributes(event).value, "custom:role") == Some(JStr(roleId));
  }

  /** The `allowed_operations` claim splits back into the role's operations when none of them
      contains a comma: splitting it on "," recovers the list. */
  lemma AllowedOperationsRoundTrip(roleId: string, role: map<string, Json>, ops: seq<string>)
    requires "allowed_operations" in role && role["allowed_operations"] == StrArray(ops)
    requires |ops| >= 1 && forall i :: 0 <= i < |ops| ==> ',' !in ops[i]
    requires !("is_super_user" in role && Truthy(role["is_super_user"]))
    ensures Claims(roleId, role).Some?
    ensures "allowed_operations" in Claims(roleId, role).value
    ensures Claims(roleId, role).value["allowed_operations"].JStr?
    ensures Split(Claims(roleId, role).value["allowed_operations"].s, ',') == ops
  {
    var items := StrArray(ops).items;
    assert JsonValue.Strings(items).value == ops by {
      assert |JsonValue.Strings(items).value| == |ops|;
      forall i | 0 <= i < |ops| ensures JsonValue.Strings(items).value[i] == ops[i] {
        assert items[i] == JStr(ops[i]) == JStr(JsonValue.Strings(items).value[i]);
      }
    }
    SplitJoin(ops, ',');
  }
}
