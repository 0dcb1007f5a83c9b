/**
 * Accounts, php-api/controllers/auth.php: `login` checks an email/password
 * pair against `users`, `register` validates a new account, refuses a taken
 * email and inserts the user with the password hashed, `me` returns the
 * caller's row, and `formatUser` fills in the defaults every response uses.
 *
 * `password_hash`/`password_verify`, the clock and the token primitives are
 * parameters; the request body is a map from field names to strings.
 */
module Auth {
  import opened Common
  import opened Tables
  import Jwt
  import Products

  /** The decoded JSON request body. */
  type Body = map<string, string>

  /** `errorResponse($message, $status, $errors)`: the response of a rejected request, with per-field messages. */
  datatype Rejection = Rejection(status: int, message: string, errors: map<string, seq<string>>)

  // ---------------------------------------------------------------------------
  // formatUser

  /** The user object of every auth response (auth.php:93-104). */
  datatype FormattedUser = FormattedUser(
    id: int, name: string, email: string, phone: Option<string>, role: string,
    avatar: Option<string>, createdAt: string, updatedAt: string)

  /**
   * `formatUser`: a missing name is "", a missing role `customer`, missing
   * timestamps the current time `now`; phone and avatar stay null when null.
   */
  function FormatUser(u: UserRow, now: string): (r: FormattedUser)
    ensures r.id == u.id && r.email == u.email && r.phone == u.phone && r.avatar == u.avatar
    ensures u.role.None? ==> r.role == "customer"
    ensures u.role.Some? ==> r.role == u.role.value
    ensures u.name.None? ==> r.name == ""
    ensures u.name.Some? ==> r.name == u.name.value
    ensures u.createdAt.None? ==> r.createdAt == now
    ensures u.createdAt.Some? ==> r.createdAt == u.createdAt.value
    ensures u.updatedAt.None? ==> r.updatedAt == now
    ensures u.updatedAt.Some? ==> r.updatedAt == u.updatedAt.value
  {
    FormattedUser(u.id, u.name.GetOr(""), u.email, u.phone, u.role.GetOr("customer"), u.avatar,
                  u.createdAt.GetOr(now), u.updatedAt.GetOr(now))
  }

  // ---------------------------------------------------------------------------
  // login

  /** `SELECT * FROM users WHERE email = ? LIMIT 1`: the first row with that email. */
  function UserByEmail(users: seq<UserRow>, email: string): (r: Option<UserRow>)
    ensures r.None? <==> forall u :: u in users ==> u.email != email
    ensures r.Some? ==> r.value in users && r.value.email == email
  {
    if |users| == 0 then None
    else if users[0].email == email then Some(users[0])
    else
      assert forall u :: u in users ==> u == users[0] || u in users[1..];
      UserByEmail(users[1..], email)
  }

  /** A successful login or registration: the user and a fresh token. */
  datatype Session = Session(user: FormattedUser, token: string)

  const MissingCredentials: Rejection :=
    Rejection(422, "Email and password are required", map["email" := ["Email is required"], "password" := ["Password is required"]])

  const BadCredentials: Rejection := Rejection(401, "Invalid email or password", map[])

  /**
   * `login` (auth.php:6-33). `verify` stands for `password_verify`, `clock`
   * for `time()` and `now` for `date('Y-m-d H:i:s')`.
   */
  function Login(users: seq<UserRow>, data: Body, verify: (string, string) -> bool,
                 p: Jwt.Primitives, clock: int, now: string): (r: Result<Session, Rejection>)
    ensures !(Products.Given(data, "email") && Products.Given(data, "password")) <==> r == Err(MissingCredentials)
    ensures r.Err? ==> r.error == MissingCredentials || r.error == BadCredentials
    ensures r.Ok? <==>
      && Products.Given(data, "email") && Products.Given(data, "password")
      && UserByEmail(users, data["email"]).Some?
      && verify(data["password"], UserByEmail(users, data["email"]).value.password)
    ensures r.Ok? ==>
      var u := UserByEmail(users, data["email"]).value;
      r.value == Session(FormatUser(u, now), Jwt.Generate(p, u.id, u.email, u.role.GetOr("customer"), clock, clock))
  {
    if !(Products.Given(data, "email") && Products.Given(data, "password")) then Err(MissingCredentials)
    else
      var found := UserByEmail(users, data["email"]);
      if found.None? || !verify(data["password"], found.value.password) then Err(BadCredentials)
      else
        var u := found.value;
        Ok(Session(FormatUser(u, now), Jwt.Generate(p, u.id, u.email, u.role.GetOr("customer"), clock, clock)))
  }

  /**
   * An unknown email and a wrong password for a known one are answered
   * identically, so a response does not reveal whether an email is registered.
   */
  lemma LoginUniform(users: seq<UserRow>, data: Body, verify: (string, string) -> bool,
                     p: Jwt.Primitives, clock: int, now: string, known: UserRow)
    requires Products.Given(data, "email") && Products.Given(data, "password")
    requires known in users && known.email == data["email"] && UserByEmail(users, data["email"]) == Some(known)
    requires !verify(data["password"], known.password)
    ensures Login(users, data, verify, p, clock, now)
      == Login(Without(users, data["email"]), data, verify, p, clock, now)
  {
    WithoutHasNone(users, data["email"]);
  }

  /** `users` with every row of that email removed. */
  function Without(users: seq<UserRow>, email: string): seq<UserRow>
  {
    if |users| == 0 then []
    else (if users[0].email == email then [] else [users[0]]) + Without(users[1..], email)
  }

  lemma {:induction false} WithoutHasNone(users: seq<UserRow>, email: string)
    ensures forall u :: u in Without(users, email) ==> u.email != email
  {
    if |users| > 0 {
      WithoutHasNone(users[1..], email);
    }
  }

  /**
   * The token of a successful login verifies, until it expires, to the
   * user's id, email and role (`customer` when the row has none).
   */
  lemma LoginTokenClaims(users: seq<UserRow>, data: Body, verify: (string, string) -> bool,
                         p: Jwt.Primitives, clock: int, now: string, at: int)
    requires Jwt.JsonRoundTrips(p)
    requires Login(users, data, verify, p, clock, now).Ok?
    requires at <= clock + Jwt.JwtExpiry
    ensures var u := UserByEmail(users, data["email"]).value;
      Jwt.Verify(p, Login(users, data, verify, p, clock, now).value.token, at)
        == Some(Jwt.Claims(u.id, u.email, u.role.GetOr("customer"), clock, Some(clock + Jwt.JwtExpiry)))
  {
    var u := UserByEmail(users, data["email"]).value;
    Jwt.VerifyGenerated(p, u.id, u.email, u.role.GetOr("customer"), clock, clock, at);
  }

  // ---------------------------------------------------------------------------
  // register

  /** The required registration fields and the message for each one left empty. */
  const Required: seq<(string, string)> :=
    [("name", "Name is required"), ("email", "Email is required"), ("password", "Password is required")]

  /** Every required field is given non-empty. */
  predicate Complete(data: Body)
  {
    Products.Given(data, "name") && Products.Given(data, "email") && Products.Given(data, "password")
  }

  /** The row `register` inserts (auth.php:53-59): the role defaults to `customer`, the password is stored hashed. */
  function NewUser(id: int, data: Body, hash: string -> string, now: string): (u: UserRow)
    requires Complete(data)
    ensures u.id == id && u.name == Some(data["name"]) && u.email == data["email"]
    ensures u.password == hash(data["password"])
    ensures "role" !in data ==> u.role == Some("customer")
    ensures "role" in data ==> u.role == Some(data["role"])
  {
    UserRow(id, Some(data["name"]), data["email"], hash(data["password"]),
            Some(if "role" in data then data["role"] else "customer"), None, None, Some(now), Some(now))
  }

  const EmailTaken: Rejection := Rejection(422, "Validation failed", map["email" := ["Email already registered"]])

  /** The INSERT of auth.php:53-59 under the next user id (`lastInsertId`). */
  method InsertUser(db: Database, u: UserRow)
    modifies db`users, db`nextUserId
    requires db.Valid() && u.id == db.nextUserId
    ensures db.Valid()
    ensures db.users == old(db.users) + [u] && db.nextUserId == u.id + 1
  {
    db.users := db.users + [u];
    db.nextUserId := db.nextUserId + 1;
    UserIdsAppend(old(db.users), u, u.id);
  }

  /**
   * `register` (auth.php:35-73). `hash` stands for `password_hash`. The row
   * read back after the INSERT is the row inserted.
   */
  method Register(db: Database, data: Body, hash: string -> string, p: Jwt.Primitives, clock: int, now: string)
    returns (r: Result<Session, Rejection>)
    modifies db`users, db`nextUserId
    requires db.Valid()
    ensures db.Valid()
    ensures r.Err? ==> db.users == old(db.users) && db.nextUserId == old(db.nextUserId)
    ensures !Complete(data) ==>
      && r.Err? && r.error.status == 422 && r.error.message == "Validation failed"
      && (forall k :: 0 <= k < |Required| ==>
            (Required[k].0 in r.error.errors <==> !Products.Given(data, Required[k].0)))
      && (forall k :: 0 <= k < |Required| && Required[k].0 in r.error.errors ==>
            r.error.errors[Required[k].0] == [Required[k].1])
      && r.error.errors.Keys <= {"name", "email", "password"}
    ensures Complete(data) && UserByEmail(old(db.users), data["email"]).Some? ==> r == Err(EmailTaken)
    ensures Complete(data) && UserByEmail(old(db.users), data["email"]).None? ==>
      var u := NewUser(old(db.nextUserId), data, hash, now);
      && db.users == old(db.users) + [u]
      && db.nextUserId == old(db.nextUserId) + 1
      && r == Ok(Session(FormatUser(u, now), Jwt.Generate(p, u.id, u.email, u.role.value, clock, clock)))
  {
    var errors: map<string, seq<string>> := map[];
    if !Products.Given(data, "name") {
      errors := errors["name" := ["Name is required"]];
    }
    if !Products.Given(data, "email") {
      errors := errors["email" := ["Email is required"]];
    }
    if !Products.Given(data, "password") {
      errors := errors["password" := ["Password is required"]];
    }
    if errors != map[] {
      return Err(Rejection(422, "Validation failed", errors));
    }
    assert "name" !in errors && "email" !in errors && "password" !in errors;
    if UserByEmail(db.users, data["email"]).Some? {
      return Err(EmailTaken);
    }
    var u := NewUser(db.nextUserId, data, hash, now);
    InsertUser(db, u);
    r := Ok(Session(FormatUser(u, now), Jwt.Generate(p, u.id, u.email, u.role.value, clock, clock)));
  }

  /** After a registration no two rows share the new email, if none did before. */
  lemma RegisterKeepsEmailsUnique(users: seq<UserRow>, u: UserRow)
    requires forall i, j :: 0 <= i < j < |users| ==> users[i].email != users[j].email
    requires UserByEmail(users, u.email).None?
    ensures var after := users + [u];
      forall i, j :: 0 <= i < j < |after| ==> after[i].email != after[j].email
  {
    var after := users + [u];
    forall i, j | 0 <= i < j < |after|
      ensures after[i].email != after[j].email
    {
      assert after[i] == users[i];
      if j < |users| {
        assert after[j] == users[j];
      } else {
        assert users[i] in users;
      }
    }
  }

  // ---------------------------------------------------------------------------
  // me

  /**
   * `me` (auth.php:75-86): 401 without a verified token, 404 when the token's
   * user is gone, else that user formatted.
   */
  function Me(users: seq<UserRow>, auth: Option<Jwt.Claims>, now: string): (r: Result<FormattedUser, HttpError>)
    ensures auth.None? ==> r == Err(HttpError(401, "Unauthorized"))
    ensures auth.Some? && (forall u :: u in users ==> u.id != auth.value.userId) ==> r == Err(HttpError(404, "User not found"))
    ensures r.Ok? <==> auth.Some? && exists u :: u in users && u.id == auth.value.userId
    ensures r.Ok? ==> r.value == FormatUser(UserById(users, auth.value.userId).value, now) && r.value.id == auth.value.userId
  {
    match Jwt.RequireAuth(auth)
    case Err(e) => Err(e)
    case Ok(claims) =>
      match UserById(users, claims.userId)
      case None => Err(HttpError(404, "User not found"))
      case Some(u) => Ok(FormatUser(u, now))
  }
}
