/** The authentication helpers of the exercises2 frontend (`exercises2/frontend/libs/auth.ts`):
    three JWTs kept in browser cookies, the outcomes of the Cognito sign-in and new-password
    flows, session refresh, and the user-attribute map. The Cognito SDK is represented by the
    outcome each of its callbacks reports; the browser's cookie jar and the SDK's remembered
    user are the fields of `AuthStore`. */
module Auth {
  import opened Wrappers

  const AccessTokenKey: string := "accessToken"
  const RefreshTokenKey: string := "refreshToken"
  const IdTokenKey: string := "idToken"

  /** The cookie names of `TOKEN_KEYS`. */
  const TokenKeys: set<string> := {AccessTokenKey, RefreshTokenKey, IdTokenKey}

  const SignInSucceeded: string := "ログインに成功しました"
  const SignInFailed: string := "ログインに失敗しました"
  const NewPasswordNeeded: string := "新しいパスワードの設定が必要です"
  const MfaNeeded: string := "MFA認証が必要です"
  const PasswordSet: string := "パスワードが正常に設定されました"
  const PasswordSetFailed: string := "パスワード設定に失敗しました"

  /** Lifetime in days of the access and ID token cookies, and of the refresh token cookie. */
  const ShortLifetime: nat := 1
  const RefreshLifetime: nat := 30

  /** A browser cookie as `js-cookie` writes it: value, lifetime in days, `Secure`, and
      `SameSite=Strict`. */
  datatype Cookie = Cookie(value: string, expiresDays: nat, secure: bool, sameSiteStrict: bool)

  datatype Tokens = Tokens(accessToken: string, refreshToken: string, idToken: string)

  /** `AuthResult`: the challenge flag is `requiresNewPassword`; tokens are reported only on
      success. */
  datatype AuthResult = AuthResult(success: bool, message: string, tokens: Option<Tokens>, requiresNewPassword: bool)

  /** Which callback `authenticateUser` invoked. */
  datatype SignInOutcome =
    | Authenticated(tokens: Tokens)
    | Failed(errorMessage: string)
    | NewPasswordRequired
    | MfaRequired

  /** Which callback `completeNewPasswordChallenge` invoked. */
  datatype ChallengeOutcome = Completed(tokens: Tokens) | ChallengeFailed(errorMessage: string)

  /** What `getSession` reported: an error, no session, or a session and whether it is
      still valid. */
  datatype SessionOutcome = SessionError | NoSession | Session(valid: bool)

  /** What `refreshSession` reported. */
  datatype RefreshOutcome = RefreshError | Refreshed(tokens: Tokens)

  /** One `CognitoUserAttribute`. */
  datatype Attribute = Attribute(name: string, value: string)

  /** What `getUserAttributes` reported; a missing list is `undefined`. */
  datatype AttributesOutcome = AttributesError | AttributeList(list: Option<seq<Attribute>>)

  datatype UserInfo = UserInfo(username: string, email: Option<string>, attributes: map<string, string>)

  /** The cookie jar after `storeTokens`: the three token cookies written, `Secure` exactly
      in production and `SameSite=Strict`; the refresh token lives 30 days, the others 1 day.
      Every other cookie is kept. */
  function WithTokens(jar: map<string, Cookie>, t: Tokens, production: bool): (r: map<string, Cookie>)
    ensures r.Keys == jar.Keys + TokenKeys
    ensures forall k :: k in jar && k !in TokenKeys ==> r[k] == jar[k]
    ensures r[AccessTokenKey].value == t.accessToken && r[RefreshTokenKey].value == t.refreshToken
            && r[IdTokenKey].value == t.idToken
    ensures r[RefreshTokenKey].expiresDays == RefreshLifetime
    ensures r[AccessTokenKey].expiresDays == ShortLifetime && r[IdTokenKey].expiresDays == ShortLifetime
    ensures forall k :: k in TokenKeys ==> r[k].secure == production && r[k].sameSiteStrict
  {
    jar[AccessTokenKey := Cookie(t.accessToken, ShortLifetime, production, true)]
       [RefreshTokenKey := Cookie(t.refreshToken, RefreshLifetime, production, true)]
       [IdTokenKey := Cookie(t.idToken, ShortLifetime, production, true)]
  }

  /** The cookie jar after `signOut`: the three token cookies are gone, every other cookie
      is kept. */
  function WithoutTokens(jar: map<string, Cookie>): (r: map<string, Cookie>)
    ensures r.Keys == jar.Keys - TokenKeys
    ensures forall k :: k in r ==> r[k] == jar[k]
  {
    jar - TokenKeys
  }

  /** `isAuthenticated` on a cookie jar: the ID-token cookie exists and is not empty. */
  predicate HasIdToken(jar: map<string, Cookie>)
  {
    IdTokenKey in jar && jar[IdTokenKey].value != ""
  }

  /** Signing out twice is signing out once. */
  lemma SignOutIdempotent(jar: map<string, Cookie>)
    ensures WithoutTokens(WithoutTokens(jar)) == WithoutTokens(jar)
    ensures !HasIdToken(WithoutTokens(jar))
  {
  }

  /** Storing tokens makes the user authenticated exactly when the ID token is not empty,
      and signing out afterwards removes all that was stored. */
  lemma StoreThenSignOut(jar: map<string, Cookie>, t: Tokens, production: bool)
    ensures HasIdToken(WithTokens(jar, t, production)) <==> t.idToken != ""
    ensures WithoutTokens(WithTokens(jar, t, production)) == WithoutTokens(jar)
  {
    var stored := WithTokens(jar, t, production);
    assert WithoutTokens(stored).Keys == WithoutTokens(jar).Keys;
  }

  /** The attribute map `forEach` builds: pairs with an empty name or value are skipped, and a
      later pair overrides an earlier one with the same name. */
  function AttributeMap(attrs: seq<Attribute>): map<string, string>
  {
    if |attrs| == 0 then map[]
    else
      var m := AttributeMap(attrs[..|attrs| - 1]);
      var a := attrs[|attrs| - 1];
      if Kept(a) then m[a.name := a.value] else m
  }

  /** An attribute that `forEach` stores: both name and value are non-empty. */
  predicate Kept(a: Attribute)
  {
    a.name != "" && a.value != ""
  }

  /** A name is in the attribute map exactly when some kept attribute has it, and its value is
      the value of the last kept attribute with that name. */
  lemma {:induction false} AttributeMapSpec(attrs: seq<Attribute>, name: string)
    ensures name in AttributeMap(attrs) <==> exists i :: 0 <= i < |attrs| && Kept(attrs[i]) && attrs[i].name == name
    ensures name in AttributeMap(attrs) ==>
      exists i :: 0 <= i < |attrs| && Kept(attrs[i]) && attrs[i].name == name
                  && AttributeMap(attrs)[name] == attrs[i].value
                  && forall j :: i < j < |attrs| ==> !(Kept(attrs[j]) && attrs[j].name == name)
    decreases |attrs|
  {
    if |attrs| > 0 {
      var init := attrs[..|attrs| - 1];
      var last := |attrs| - 1;
      AttributeMapSpec(init, name);
      assert forall i :: 0 <= i < |init| ==> init[i] == attrs[i];
      if !(Kept(attrs[last]) && attrs[last].name == name) && name in AttributeMap(attrs) {
        var i :| 0 <= i < |init| && Kept(init[i]) && init[i].name == name
                 && AttributeMap(init)[name] == init[i].value
                 && forall j :: i < j < |init| ==> !(Kept(init[j]) && init[j].name == name);
        assert AttributeMap(attrs)[name] == attrs[i].value;
      }
    }
  }

  /** The browser side of authentication: the cookie jar and the user the Cognito SDK
      remembers in local storage. */
  class AuthStore {
    var cookies: map<string, Cookie>
    var currentUser: Option<string>
    /** `process.env.NODE_ENV === 'production'`. */
    const production: bool

    constructor(production: bool)
      ensures this.production == production && cookies == map[] && currentUser == None
    {
      this.production := production;
      cookies := map[];
      currentUser := None;
    }

    /** `getIdToken`: the ID-token cookie, if there is one. */
    function IdToken(): (r: Option<string>)
      reads this
      ensures r.Some? <==> IdTokenKey in cookies
      ensures r.Some? ==> r.value == cookies[IdTokenKey].value
    {
      if IdTokenKey in cookies then Some(cookies[IdTokenKey].value) else None
    }

    /** `isAuthenticated`: `!!getIdToken()`. */
    function IsAuthenticated(): (r: bool)
      reads this
      ensures r <==> HasIdToken(cookies)
    {
      var token := IdToken();
      token.Some? && token.value != ""
    }

    /** `storeTokens`: write the three token cookies. */
    method StoreTokens(t: Tokens)
      modifies this
      ensures cookies == WithTokens(old(cookies), t, production)
      ensures currentUser == old(currentUser)
    {
      var options := Cookie("", ShortLifetime, production, true);
      cookies := cookies[AccessTokenKey := options.(value := t.accessToken)];
      cookies := cookies[RefreshTokenKey := options.(value := t.refreshToken, expiresDays := RefreshLifetime)];
      cookies := cookies[IdTokenKey := options.(value := t.idToken)];
    }

    /** `signOut`: forget the SDK's user and remove the three token cookies. */
    method SignOut()
      modifies this
      ensures cookies == WithoutTokens(old(cookies))
      ensures currentUser == None
    {
      currentUser := None;
      cookies := cookies - {AccessTokenKey};
      cookies := cookies - {RefreshTokenKey};
      cookies := cookies - {IdTokenKey};
    }

    /** `signIn`: on success the tokens are stored (and the SDK remembers the user); a
        failure passes the provider's message through, with a fallback for an empty one; the
        new-password and MFA challenges store nothing. */
    method SignIn(username: string, outcome: SignInOutcome) returns (result: AuthResult)
      modifies this
      ensures result.success <==> outcome.Authenticated?
      ensures result.requiresNewPassword <==> outcome.NewPasswordRequired?
      ensures outcome.Authenticated? ==>
                result == AuthResult(true, SignInSucceeded, Some(outcome.tokens), false)
                && cookies == WithTokens(old(cookies), outcome.tokens, production)
                && currentUser == Some(username)
      ensures !outcome.Authenticated? ==>
                cookies == old(cookies) && currentUser == old(currentUser) && result.tokens == None
      ensures outcome.Failed? ==>
                result.message == (if outcome.errorMessage != "" then outcome.errorMessage else SignInFailed)
      ensures outcome.NewPasswordRequired? ==> result.message == NewPasswordNeeded
      ensures outcome.MfaRequired? ==> result.message == MfaNeeded
    {
      match outcome {
        case Authenticated(tokens) =>
          currentUser := Some(username);
          StoreTokens(tokens);
          result := AuthResult(true, SignInSucceeded, Some(tokens), false);
        case Failed(errorMessage) =>
          result := AuthResult(false, if errorMessage != "" then errorMessage else SignInFailed, None, false);
        case NewPasswordRequired =>
          result := AuthResult(false, NewPasswordNeeded, None, true);
        case MfaRequired =>
          result := AuthResult(false, MfaNeeded, None, false);
      }
    }

    /** `completeNewPassword`: on success the tokens are stored; a failure passes the
        provider's message through, with a fallback for an empty one. */
    method CompleteNewPassword(username: string, outcome: ChallengeOutcome) returns (result: AuthResult)
      modifies this
      ensures result.success <==> outcome.Completed?
      ensures !result.requiresNewPassword
      ensures outcome.Completed? ==>
                result == AuthResult(true, PasswordSet, Some(outcome.tokens), false)
                && cookies == WithTokens(old(cookies), outcome.tokens, production)
                && currentUser == Some(username)
      ensures outcome.ChallengeFailed? ==>
                result == AuthResult(false, if outcome.errorMessage != "" then outcome.errorMessage else PasswordSetFailed, None, false)
                && cookies == old(cookies) && currentUser == old(currentUser)
    {
      match outcome {
        case Completed(tokens) =>
          currentUser := Some(username);
          StoreTokens(tokens);
          result := AuthResult(true, PasswordSet, Some(tokens), false);
        case ChallengeFailed(errorMessage) =>
          result := AuthResult(false, if errorMessage != "" then errorMessage else PasswordSetFailed, None, false);
      }
    }

    /** `refreshToken`: without a remembered user, false; a session error or no session
        signs out; a valid session is kept as it is; an expired one is refreshed, and a failed
        refresh signs out. */
    method RefreshToken(session: SessionOutcome, refresh: RefreshOutcome) returns (ok: bool)
      modifies this
      ensures old(currentUser).None? ==> !ok && cookies == old(cookies) && currentUser == None
      ensures old(currentUser).Some? && !session.Session? ==>
                !ok && cookies == WithoutTokens(old(cookies)) && currentUser == None
      ensures old(currentUser).Some? && session == Session(true) ==>
                ok && cookies == old(cookies) && currentUser == old(currentUser)
      ensures old(currentUser).Some? && session == Session(false) && refresh.RefreshError? ==>
                !ok && cookies == WithoutTokens(old(cookies)) && currentUser == None
      ensures old(currentUser).Some? && session == Session(false) && refresh.Refreshed? ==>
                ok && cookies == WithTokens(old(cookies), refresh.tokens, production)
                && currentUser == old(currentUser)
    {
      if currentUser.None? {
        return false;
      }
      if !session.Session? {
        SignOut();
        return false;
      }
      if session.valid {
        return true;
      }
      match refresh {
        case RefreshError =>
          SignOut();
          ok := false;
        case Refreshed(tokens) =>
          StoreTokens(tokens);
          ok := true;
      }
    }

    /** `getCurrentUser`: an erroneous, missing or expired session signs out; an attribute
        error gives `null`; otherwise the attribute map is built pair by pair and `email` is
        read from it. */
    method GetCurrentUser(session: SessionOutcome, attributes: AttributesOutcome) returns (info: Option<UserInfo>)
      modifies this
      ensures old(currentUser).None? ==> info.None? && cookies == old(cookies) && currentUser == None
      ensures old(currentUser).Some? && session != Session(true) ==>
                info.None? && cookies == WithoutTokens(old(cookies)) && currentUser == None
      ensures old(currentUser).Some? && session == Session(true) ==>
                cookies == old(cookies) && currentUser == old(currentUser)
                && (attributes.AttributesError? ==> info.None?)
                && (attributes.AttributeList? ==>
                      var m := AttributeMap(attributes.list.GetOr([]));
                      info == Some(UserInfo(old(currentUser).value, if "email" in m then Some(m["email"]) else None, m)))
    {
      if currentUser.None? {
        return None;
      }
      if session != Session(true) {
        SignOut();
        return None;
      }
      if attributes.AttributesError? {
        return None;
      }
      var list := attributes.list.GetOr([]);
      var attributesMap: map<string, string> := map[];
      for i := 0 to |list|
        invariant attributesMap == AttributeMap(list[..i])
      {
        assert list[..i + 1][..i] == list[..i];
        var attr := list[i];
        if attr.name != "" && attr.value != "" {
          attributesMap := attributesMap[attr.name := attr.value];
        }
      }
      assert list[..|list|] == list;
      var email := if "email" in attributesMap then Some(attributesMap["email"]) else None;
      return Some(UserInfo(currentUser.value, email, attributesMap));
    }
  }
}
