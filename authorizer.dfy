/** The API Gateway authorizer of the exercises2 backend
    (`exercises2/backend/services/Authorizer/app.py`): it turns the role record of the
    caller into an IAM-style Allow/Deny policy over method ARNs. The JWT signature check and
    the key download are outside the model; their verdict is an input. */
module Authorizer {
  import opened Wrappers
  import opened Strings
  import opened JsonValue

  /** A role as stored in the role table; `None` is a missing attribute. */
  datatype RoleRecord = RoleRecord(isSuperUser: Option<Json>, allowedOperations: Option<seq<string>>)

  /** `role_data.get("is_super_user") in [True, "true", "True", 1, "1"]`. */
  predicate IsSuperUser(role: RoleRecord)
  {
    role.isSuperUser.Some?
    && role.isSuperUser.value in {JBool(true), JStr("true"), JStr("True"), JInt(1), JStr("1")}
  }

  datatype Effect = Allow | Deny

  /** One statement of a policy document. */
  datatype Statement = Statement(action: string, effect: Effect, resource: seq<string>)

  /** The authorizer response: principal, policy document and optional context. A principal
      of `None` is Python's `None`. */
  datatype Policy = Policy(
    principalId: Option<string>,
    version: string,
    statements: seq<Statement>,
    context: Option<map<string, string>>)

  const InvokeAction: string := "execute-api:Invoke"
  const PolicyVersion: string := "2012-10-17"

  /** `generate_policy`: one `execute-api:Invoke` statement; the context is attached only
      when one is given and it is non-empty (`if context:`). */
  function GeneratePolicy(principalId: Option<string>, effect: Effect, resources: seq<string>,
                          context: Option<map<string, string>>): (p: Policy)
    ensures p.principalId == principalId && p.version == PolicyVersion
    ensures |p.statements| == 1
    ensures p.statements[0] == Statement(InvokeAction, effect, resources)
    ensures p.context.Some? <==> context.Some? && |context.value| > 0
    ensures p.context.Some? ==> p.context == context
  {
    Policy(principalId, PolicyVersion, [Statement(InvokeAction, effect, resources)],
           if context.Some? && |context.value| > 0 then context else None)
  }

  /** `generate_deny`: a Deny on exactly the requested method ARN, without context. */
  function GenerateDeny(principalId: Option<string>, methodArn: string): (p: Policy)
  {
    GeneratePolicy(principalId, Deny, [methodArn], None)
  }

  function Min(a: int, b: int): int { if a <= b then a else b }

  /** `get_method_arn_prefix`: the first two "/"-separated segments of the method ARN,
      that is `arn:aws:execute-api:region:account:api-id/stage`. */
  function MethodArnPrefix(methodArn: string): string
  {
    var parts := Split(methodArn, '/');
    Join(parts[..Min(2, |parts|)], "/")
  }

  /** The prefix re-splits into the first two segments of the ARN, and the ARN continues
      after it with a "/" or ends there. */
  lemma MethodArnPrefixShape(methodArn: string)
    ensures Split(MethodArnPrefix(methodArn), '/') == Split(methodArn, '/')[..Min(2, |Split(methodArn, '/')|)]
    ensures StartsWith(methodArn, MethodArnPrefix(methodArn))
    ensures MethodArnPrefix(methodArn) == methodArn || methodArn[|MethodArnPrefix(methodArn)|] == '/'
  {
    var parts := Split(methodArn, '/');
    var k := Min(2, |parts|);
    var p := MethodArnPrefix(methodArn);
    SplitPiecesFree(methodArn, '/');
    SplitJoin(parts[..k], '/');
    JoinSplit(methodArn, '/');
    if |parts| > 2 {
      assert parts == parts[..2] + parts[2..];
      JoinConcat(parts[..2], parts[2..], "/");
      assert methodArn == p + "/" + Join(parts[2..], "/");
      assert methodArn[..|p|] == p;
    } else {
      assert parts[..k] == parts;
    }
  }

  /** Index of the first occurrence of `c` in `s`, if any. */
  function FirstIndex(s: string, c: char): (r: Option<nat>)
    ensures r.None? <==> c !in s
    ensures r.Some? ==> r.value < |s| && s[r.value] == c && c !in s[..r.value]
  {
    if |s| == 0 then None
    else if s[0] == c then Some(0)
    else match FirstIndex(s[1..], c)
      case None => None
      case Some(k) => assert s[..k + 1] == [s[0]] + s[1..][..k]; Some(k + 1)
  }

  /** `method, path = op.split(" ", 1)`: the text before the first space and the rest;
      `None` where the unpacking raises because the operation has no space. */
  function SplitOperation(op: string): (r: Option<(string, string)>)
    ensures r.None? <==> ' ' !in op
    ensures r.Some? ==> op == r.value.0 + " " + r.value.1 && ' ' !in r.value.0
  {
    match FirstIndex(op, ' ')
    case None => None
    case Some(k) => assert op == op[..k] + " " + op[k + 1..]; Some((op[..k], op[k + 1..]))
  }

  /** The ARN one allowed operation "METHOD path" expands to: base + "/" + METHOD + path,
      with a "/" put in front of a path that lacks one. */
  function OperationArn(base: string, op: string): (r: Option<string>)
    ensures r.Some? <==> ' ' in op
  {
    match SplitOperation(op)
    case None => None
    case Some((verb, path)) =>
      Some(base + "/" + verb + (if StartsWith(path, "/") then path else "/" + path))
  }

  /** An expanded ARN is the base, a "/", the method, and a path that starts with "/". */
  lemma OperationArnShape(base: string, op: string)
    requires ' ' in op
    ensures var (verb, path) := SplitOperation(op).value;
            var arn := OperationArn(base, op).value;
            StartsWith(arn, base + "/" + verb + "/")
            && arn == base + "/" + verb + (if StartsWith(path, "/") then path else "/" + path)
  {
    var (verb, path) := SplitOperation(op).value;
    var arn := OperationArn(base, op).value;
    var prefix := base + "/" + verb + "/";
    if StartsWith(path, "/") {
      assert path == "/" + path[1..];
      assert arn == prefix + path[1..];
    } else {
      assert arn == prefix + path;
    }
  }

  /** `expand_allowed_operations`: one ARN per operation, in input order, under the
      method-ARN prefix. `None` where an operation without a space makes the unpacking
      raise. */
  method ExpandAllowedOperations(allowedOps: seq<string>, methodArn: string) returns (r: Option<seq<string>>)
    ensures r.Some? <==> forall i :: 0 <= i < |allowedOps| ==> ' ' in allowedOps[i]
    ensures r.Some? ==> |r.value| == |allowedOps|
    ensures r.Some? ==> forall i :: 0 <= i < |allowedOps| ==>
      OperationArn(MethodArnPrefix(methodArn), allowedOps[i]) == Some(r.value[i])
  {
    var parts := Split(methodArn, '/');
    var baseArn := Join(parts[..Min(2, |parts|)], "/");
    var expanded: seq<string> := [];
    for i := 0 to |allowedOps|
      invariant |expanded| == i
      invariant forall j :: 0 <= j < i ==> ' ' in allowedOps[j]
      invariant forall j :: 0 <= j < i ==> OperationArn(baseArn, allowedOps[j]) == Some(expanded[j])
    {
      var op := allowedOps[i];
      var split := SplitOperation(op);
      if split.None? {
        return None;
      }
      var (verb, path) := split.value;
      if !StartsWith(path, "/") {
        path := "/" + path;
      }
      var arn := baseArn + "/" + verb + path;
      expanded := expanded + [arn];
    }
    return Some(expanded);
  }

  /** The verdict of the JWT check (signature, audience and issuer) on the bearer token. */
  datatype TokenVerdict = InvalidToken | Verified(claims: map<string, string>)

  /** A claim that is present and non-empty, as `all([...])` demands. */
  predicate HasClaim(claims: map<string, string>, name: string)
  {
    name in claims && claims[name] != ""
  }

  /** `lambda_handler`: decide the policy for a request on `methodArn`, given the token
      verdict and the role table. `None` is an exception escaping the handler (an allowed
      operation without a space). */
  method Authorize(methodArn: string, verdict: TokenVerdict, roles: map<string, RoleRecord>)
    returns (r: Option<Policy>)
    ensures (verdict.InvalidToken?
             || !HasClaim(verdict.claims, "username") || !HasClaim(verdict.claims, "custom:role")
             || !HasClaim(verdict.claims, "sub"))
            ==> r == Some(GenerateDeny(Some("unauthorized"), methodArn))
    ensures verdict.Verified? && HasClaim(verdict.claims, "username")
            && HasClaim(verdict.claims, "custom:role") && HasClaim(verdict.claims, "sub")
            ==> var claims := verdict.claims;
                var ctx := Some(map["username" := claims["username"]]);
                && (claims["custom:role"] !in roles ==> r == Some(GenerateDeny(Some(claims["sub"]), methodArn)))
                && (claims["custom:role"] in roles && IsSuperUser(roles[claims["custom:role"]]) ==>
                      r == Some(GeneratePolicy(Some(claims["sub"]), Allow, [MethodArnPrefix(methodArn) + "/*/*"], ctx)))
                && (claims["custom:role"] in roles && !IsSuperUser(roles[claims["custom:role"]]) ==>
                      var ops := roles[claims["custom:role"]].allowedOperations.GetOr([]);
                      && (r.Some? <==> forall i :: 0 <= i < |ops| ==> ' ' in ops[i])
                      && (r.Some? ==> r.value.principalId == Some(claims["sub"]) && r.value.context == ctx
                                      && |r.value.statements| == 1 && r.value.statements[0].effect == Allow
                                      && |r.value.statements[0].resource| == |ops|
                                      && forall i :: 0 <= i < |ops| ==>
                                           OperationArn(MethodArnPrefix(methodArn), ops[i]) == Some(r.value.statements[0].resource[i])))
  {
    if verdict.InvalidToken? {
      return Some(GenerateDeny(Some("unauthorized"), methodArn));
    }
    var claims := verdict.claims;
    if !HasClaim(claims, "username") || !HasClaim(claims, "custom:role") || !HasClaim(claims, "sub") {
      return Some(GenerateDeny(Some("unauthorized"), methodArn));
    }
    var username, roleId, principalId := claims["username"], claims["custom:role"], claims["sub"];
    if roleId !in roles {
      return Some(GenerateDeny(Some(principalId), methodArn));
    }
    var role := roles[roleId];
    var context := Some(map["username" := username]);
    if IsSuperUser(role) {
      return Some(GeneratePolicy(Some(principalId), Allow, [MethodArnPrefix(methodArn) + "/*/*"], context));
    }
    var allowedArns := ExpandAllowedOperations(role.allowedOperations.GetOr([]), methodArn);
    if allowedArns.None? {
      return None;
    }
    return Some(GeneratePolicy(Some(principalId), Allow, allowedArns.value, context));
  }
}
