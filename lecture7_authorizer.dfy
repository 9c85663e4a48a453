/** The simpler authorizer of lecture7 (`lecture7/services/Authorizer/app.py`): the token is
    decoded without a signature check, no claim is insisted upon, and the policy never
    carries a context. The policy builders and the ARN expansion are those of `Authorizer`. */
module Lecture7Authorizer {
  import opened Wrappers
  import opened Authorizer

  /** What `jwt.decode(token, options={"verify_signature": False})` gives: a decode failure,
      or the claims of the token. */
  datatype Decoding = DecodeFailure | Claims(claims: map<string, string>)

  /** `claims.get(name)`. */
  function Claim(claims: map<string, string>, name: string): (r: Option<string>)
    ensures r.Some? <==> name in claims
    ensures r.Some? ==> r.value == claims[name]
  {
    if name in claims then Some(claims[name]) else None
  }

  /** `lambda_handler`: the decision for a request on `methodArn`. A missing role id makes
      the table lookup fail, which `fetch_role_data` turns into "no role". `None` is an
      exception escaping the handler (an allowed operation without a space). */
  method Authorize(methodArn: string, decoding: Decoding, roles: map<string, RoleRecord>)
    returns (r: Option<Policy>)
    ensures r.Some? ==> r.value.context.None? && |r.value.statements| == 1
    ensures decoding.DecodeFailure? ==> r == Some(GenerateDeny(Some("unauthorized"), methodArn))
    ensures decoding.Claims? ==>
      var roleId := Claim(decoding.claims, "custom:role");
      var principal := Claim(decoding.claims, "sub");
      && (roleId.None? || roleId.value !in roles ==> r == Some(GenerateDeny(principal, methodArn)))
      && (roleId.Some? && roleId.value in roles && IsSuperUser(roles[roleId.value]) ==>
            r == Some(GeneratePolicy(principal, Allow, [MethodArnPrefix(methodArn) + "/*/*"], None)))
      && (roleId.Some? && roleId.value in roles && !IsSuperUser(roles[roleId.value]) ==>
            var ops := roles[roleId.value].allowedOperations.GetOr([]);
            && (r.Some? <==> forall i :: 0 <= i < |ops| ==> ' ' in ops[i])
            && (r.Some? ==> r.value.principalId == principal
                            && r.value.statements[0].effect == Allow
                            && |r.value.statements[0].resource| == |ops|
                            && forall i :: 0 <= i < |ops| ==>
                                 OperationArn(MethodArnPrefix(methodArn), ops[i]) == Some(r.value.statements[0].resource[i])))
  {
    if decoding.DecodeFailure? {
      return Some(GenerateDeny(Some("unauthorized"), methodArn));
    }
    var roleId := Claim(decoding.claims, "custom:role");
    var principalId := Claim(decoding.claims, "sub");
    if roleId.None? || roleId.value !in roles {
      return Some(GenerateDeny(principalId, methodArn));
    }
    var role := roles[roleId.value];
    if IsSuperUser(role) {
      return Some(GeneratePolicy(principalId, Allow, [MethodArnPrefix(methodArn) + "/*/*"], None));
    }
    var allowedArns := ExpandAllowedOperations(role.allowedOperations.GetOr([]), methodArn);
    if allowedArns.None? {
      return None;
    }
    return Some(GeneratePolicy(principalId, Allow, allowedArns.value, None));
  }
}
