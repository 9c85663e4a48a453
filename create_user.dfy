/** The user-creation handler of lecture7 (`lecture7/services/UserService/CreateUser/app.py`):
    it validates the username, creates the user in the Cognito user pool with a temporary
    password and then makes that password permanent. The user pool is a map from username
    to user; the failures Cognito may report besides a duplicate name are parameters. */
module CreateUserHandler {
  import opened Wrappers
  import opened JsonValue

  const DefaultTemporaryPassword: string := "TempPassword123!"
  const InvalidUsername: string := "Invalid username"
  const ReservedUsername: string := "Username 'me' is reserved"
  const UsernameExists: string := "Username already exists"
  const InternalError: string := "Internal server error"
  const UserCreated: string := "User created"

  const MinUsernameLength: nat := 3
  const MaxUsernameLength: nat := 32

  /** A user of the pool: its attributes and password, and whether the password is still a
      temporary one. */
  datatype User = User(attributes: map<string, string>, password: string, permanent: bool)

  /** The fields the handler reads by `body[...]`, in the order it reads them. */
  const RequiredFields: seq<string> := ["username", "email", "role"]

  /** The first required field the body lacks, if any: the `KeyError` the handler raises. */
  function MissingField(fields: map<string, Json>): (r: Option<string>)
    ensures r.None? <==> "username" in fields && "email" in fields && "role" in fields
    ensures r.Some? ==> r.value in RequiredFields && r.value !in fields
    ensures r.Some? ==> forall i :: 0 <= i < |RequiredFields| && RequiredFields[i] == r.value ==>
                          forall j :: 0 <= j < i ==> RequiredFields[j] in fields
  {
    if "username" !in fields then Some("username")
    else if "email" !in fields then Some("email")
    else if "role" !in fields then Some("role")
    else None
  }

  /** Python's `len()` of a decoded JSON value; numbers, booleans and `None` have none. */
  function PyLen(j: Json): Option<nat>
  {
    match j
    case JStr(s) => Some(|s|)
    case JArr(items) => Some(|items|)
    case JObj(fields) => Some(|fields|)
    case _ => None
  }

  /** The verdict of the username checks: accepted, rejected with a 400 message, or a
      `TypeError` from `len()`. */
  datatype UsernameVerdict = Accepted | Rejected(message: string) | LenTypeError

  /** `if not username or len(username) < 3 or len(username) > 32: ... elif username == "me": ...` */
  function CheckUsername(username: Json): (v: UsernameVerdict)
    ensures username.JStr? ==> (v.Accepted? <==> MinUsernameLength <= |username.s| <= MaxUsernameLength)
  {
    if !Truthy(username) then Rejected(InvalidUsername)
    else if PyLen(username).None? then LenTypeError
    else if PyLen(username).value < MinUsernameLength || PyLen(username).value > MaxUsernameLength then Rejected(InvalidUsername)
    else if username == JStr("me") then Rejected(ReservedUsername)
    else Accepted
  }

  /** The reserved-name branch is dead: "me" is shorter than three characters, so the length
      check has already rejected it as an invalid username. */
  lemma ReservedNameBranchUnreachable(username: Json)
    ensures CheckUsername(username) != Rejected(ReservedUsername)
    ensures CheckUsername(JStr("me")) == Rejected(InvalidUsername)
  {
  }

  function ErrorBody(message: string): Json
  {
    JObj(map["error" := JStr(message)])
  }

  /** `lambda_handler`: the response and the user pool afterwards. A missing field gives 400
      "Missing field: '<name>'", a bad username 400, a name already in the pool 400 without
      any change; a value that is not a string for a Cognito parameter, a Cognito failure
      or a malformed body gives 500. A failure of the second call leaves the user created
      with its temporary password. */
  function Handle(body: EventBody, pool: map<string, User>, createFault: Option<string>, setFault: Option<string>): (r: (Response, map<string, User>))
    ensures r.0.Response? && r.0.statusCode in {201, 400, 500}
    ensures r.0.statusCode != 201 && r.1 != pool ==> r.0.statusCode == 500 && setFault.Some?
    ensures body.Absent? ==> r == (Response(400, ErrorBody("Missing field: 'username'")), pool)
    ensures r.0.statusCode == 201 ==>
              DecodeBody(body).Parsed? && DecodeBody(body).value.JObj? && MissingField(DecodeBody(body).value.fields).None?
    ensures r.0.statusCode == 201 ==>
              var fields := DecodeBody(body).value.fields;
              && fields["username"].JStr? && fields["email"].JStr? && fields["role"].JStr?
              && var username := fields["username"].s;
              && CheckUsername(fields["username"]).Accepted?
              && username !in pool
              && r.0.body == JObj(map["message" := JStr(UserCreated), "username" := JStr(username)])
              && r.1.Keys == pool.Keys + {username}
              && r.1[username].permanent
              && r.1[username].attributes == map["email" := fields["email"].s, "email_verified" := "true", "custom:role" := fields["role"].s]
              && ("temporary_password" in fields ==> fields["temporary_password"].JStr?)
              && r.1[username].password == (if "temporary_password" in fields then fields["temporary_password"].s else DefaultTemporaryPassword)
  {
    match DecodeBody(body)
    case DecodeError => (Response(500, ErrorBody(InternalError)), pool)
    case TypeError => (Response(500, ErrorBody(InternalError)), pool)
    case Parsed(j) =>
      if !j.JObj? then (Response(500, ErrorBody(InternalError)), pool)
      else if MissingField(j.fields).Some? then
        var name := MissingField(j.fields).value;
        assert name == "username" ==> "Missing field: '" + name + "'" == "Missing field: 'username'";
        (Response(400, ErrorBody("Missing field: '" + name + "'")), pool)
      else
        var username, email, role := j.fields["username"], j.fields["email"], j.fields["role"];
        var password := if "temporary_password" in j.fields then j.fields["temporary_password"] else JStr(DefaultTemporaryPassword);
        match CheckUsername(username)
        case Rejected(message) => (Response(400, ErrorBody(message)), pool)
        case LenTypeError => (Response(500, ErrorBody(InternalError)), pool)
        case Accepted =>
          if !(username.JStr? && email.JStr? && role.JStr? && password.JStr?) then
            (Response(500, ErrorBody(InternalError)), pool)
          else if username.s in pool then (Response(400, ErrorBody(UsernameExists)), pool)
          else if createFault.Some? then (Response(500, ErrorBody(InternalError)), pool)
          else
            var attributes := map["email" := email.s, "email_verified" := "true", "custom:role" := role.s];
            var created := pool[username.s := User(attributes, password.s, false)];
            if setFault.Some? then (Response(500, ErrorBody(InternalError)), created)
            else
              (Response(201, JObj(map["message" := JStr(UserCreated), "username" := JStr(username.s)])),
               created[username.s := User(attributes, password.s, true)])
  }

  /** Creating a user whose name the pool already holds answers 400 and changes nothing. */
  lemma DuplicateRejected(name: string, email: string, role: string, pool: map<string, User>, createFault: Option<string>, setFault: Option<string>)
    requires name in pool && MinUsernameLength <= |name| <= MaxUsernameLength
    ensures var body := Text(Some(JObj(map["username" := JStr(name), "email" := JStr(email), "role" := JStr(role)])));
            Handle(body, pool, createFault, setFault) == (Response(400, ErrorBody(UsernameExists)), pool)
  {
    var fields := map["username" := JStr(name), "email" := JStr(email), "role" := JStr(role)];
    assert MissingField(fields).None?;
    assert CheckUsername(JStr(name)).Accepted?;
  }

  /** A fresh, well-formed request creates exactly that user, with the default password made
      permanent. */
  lemma FreshUserCreated(name: string, email: string, role: string, pool: map<string, User>)
    requires name !in pool && MinUsernameLength <= |name| <= MaxUsernameLength
    ensures var body := Text(Some(JObj(map["username" := JStr(name), "email" := JStr(email), "role" := JStr(role)])));
            var attributes := map["email" := email, "email_verified" := "true", "custom:role" := role];
            Handle(body, pool, None, None)
              == (Response(201, JObj(map["message" := JStr(UserCreated), "username" := JStr(name)])),
                  pool[name := User(attributes, DefaultTemporaryPassword, true)])
  {
    var fields := map["username" := JStr(name), "email" := JStr(email), "role" := JStr(role)];
    assert MissingField(fields).None?;
    assert CheckUsername(JStr(name)).Accepted?;
    assert "temporary_password" !in fields;
    var attributes := map["email" := email, "email_verified" := "true", "custom:role" := role];
    var user := User(attributes, DefaultTemporaryPassword, false);
    assert pool[name := user][name := user.(permanent := true)] == pool[name := user.(permanent := true)];
  }
}
