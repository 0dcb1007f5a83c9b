/**
 * The client's session, src/contexts/AuthContext.tsx: the signed-in user,
 * the bearer token the API client holds (and mirrors to local storage), and
 * the loading flag of the start-up check. The server's answer to each call
 * is a parameter: either the body of a 2xx response, or the object the API
 * client throws for any other status.
 */
module AuthContext {
  import opened Common
  import Auth
  import Tables
  import Jwt

  type User = Auth.FormattedUser

  /** `data` of an auth response: the user, and the token where the endpoint issues one. */
  datatype AuthData = AuthData(user: User, token: Option<string>)

  /** `AuthResponse`: success flag, message, optional data and optional field errors. */
  datatype AuthResponse = AuthResponse(
    success: bool, message: string, data: Option<AuthData>, errors: Option<map<string, seq<string>>>)

  /**
   * What a call to the API client ends with: a 2xx body, or a throw with a
   * message and perhaps field errors: the server's `{ message, errors }`
   * (src/services/api.ts:71-76, "Something went wrong" for a body without a
   * message), "Request timeout", or whatever a failed `fetch` throws.
   */
  datatype Outcome =
    | Responded(response: AuthResponse)
    | Threw(message: string, errors: Option<map<string, seq<string>>>)

  /**
   * How the API client surfaces a login or registration answer of the
   * server: the session as a success body; a rejection as a throw carrying
   * its message, and its errors when there are any (`if ($errors)`,
   * php-api/helpers/response.php:20-28).
   */
  function SessionReply(r: Result<Auth.Session, Auth.Rejection>, successMessage: string): Outcome
  {
    match r
    case Ok(s) => Responded(AuthResponse(true, successMessage, Some(AuthData(s.user, Some(s.token))), None))
    case Err(rej) => Threw(rej.message, if rej.errors == map[] then None else Some(rej.errors))
  }

  /** The same for `me`, whose data holds the user only. */
  function MeReply(r: Result<User, HttpError>): Outcome
  {
    match r
    case Ok(u) => Responded(AuthResponse(true, "Success", Some(AuthData(u, None)), None))
    case Err(e) => Threw(e.message, None)
  }

  /**
   * The response `login` and `register` resolve to: a 2xx body as it is;
   * a throw as a failure with its message, or `fallback` when it has none,
   * and its errors.
   */
  function Settle(o: Outcome, fallback: string): (r: AuthResponse)
    ensures o.Threw? ==> !r.success && r.data.None? && r.errors == o.errors
    ensures o.Threw? && o.message != "" ==> r.message == o.message
    ensures o.Threw? && o.message == "" ==> r.message == fallback
    ensures o.Responded? ==> r == o.response
  {
    match o
    case Responded(resp) => resp
    case Threw(m, e) => AuthResponse(false, if m != "" then m else fallback, None, e)
  }

  /** Whether a response signs the user in: `response.success && response.data`. */
  predicate SignsIn(r: AuthResponse)
  {
    r.success && r.data.Some?
  }

  /** The body `login` posts. */
  function LoginBody(email: string, password: string): map<string, string>
  {
    map["email" := email, "password" := password]
  }

  /** The body `register` posts: the password is sent again as its own confirmation. */
  function RegisterBody(name: string, email: string, password: string, role: string): (b: map<string, string>)
    ensures b.Keys == {"name", "email", "password", "password_confirmation", "role"}
    ensures b["password_confirmation"] == b["password"] == password
    ensures b["name"] == name && b["email"] == email && b["role"] == role
  {
    map["name" := name, "email" := email, "password" := password, "password_confirmation" := password, "role" := role]
  }

  /**
   * Against the server's `login`: the client signs in exactly when the
   * server accepts, with the server's user and token; a rejection reaches
   * the page with the server's own message, never the fallback.
   */
  lemma LoginAgainstServer(users: seq<Tables.UserRow>, email: string, password: string,
                           verify: (string, string) -> bool, p: Jwt.Primitives, clock: int, now: string)
    ensures var server := Auth.Login(users, LoginBody(email, password), verify, p, clock, now);
      var client := Settle(SessionReply(server, "Login successful"), "Login failed");
      && (SignsIn(client) <==> server.Ok?)
      && (server.Ok? ==> client.data.value == AuthData(server.value.user, Some(server.value.token)))
      && (server.Err? ==> client.message == server.error.message && client.message != "Login failed")
  {
    var server := Auth.Login(users, LoginBody(email, password), verify, p, clock, now);
    if server.Err? {
      assert server.error == Auth.MissingCredentials || server.error == Auth.BadCredentials;
    }
  }

  /** The session state the provider holds. */
  class Session {
    var user: Option<User>
    var token: Option<string>
    var isLoading: bool

    /** `!!user`. */
    predicate IsAuthenticated()
      reads this
    {
      user.Some?
    }

    /** Start-up: no user, loading, and the token left in local storage (src/services/api.ts:14-17). */
    constructor (stored: Option<string>)
      ensures user == None && token == stored && isLoading
    {
      user := None;
      token := stored;
      isLoading := true;
    }

    /** `apiService.setToken` and `setUser` from a signing-in response. */
    method SignIn(data: AuthData)
      modifies this`user, this`token
      ensures user == Some(data.user) && token == data.token
    {
      token := data.token;
      user := Some(data.user);
    }

    /**
     * `login`: a signing-in response stores its token and user; any other
     * answer leaves the session as it was. The response is returned to the
     * page with the fallback "Login failed" for a throw without a message.
     */
    method Login(email: string, password: string, o: Outcome) returns (r: AuthResponse)
      modifies this`user, this`token
      ensures r == Settle(o, "Login failed")
      ensures SignsIn(r) ==> user == Some(r.data.value.user) && token == r.data.value.token
      ensures !SignsIn(r) ==> user == old(user) && token == old(token)
    {
      r := Settle(o, "Login failed");
      if r.success && r.data.Some? {
        SignIn(r.data.value);
      }
    }

    /** `register`: the same, with the fallback "Registration failed". */
    method Register(name: string, email: string, password: string, role: string, o: Outcome)
      returns (r: AuthResponse)
      modifies this`user, this`token
      ensures r == Settle(o, "Registration failed")
      ensures SignsIn(r) ==> user == Some(r.data.value.user) && token == r.data.value.token
      ensures !SignsIn(r) ==> user == old(user) && token == old(token)
    {
      r := Settle(o, "Registration failed");
      if r.success && r.data.Some? {
        SignIn(r.data.value);
      }
    }

    /** `logout`: whatever the server answers, the token and the user are gone. */
    method Logout()
      modifies this`user, this`token
      ensures user == None && token == None && !IsAuthenticated()
    {
      token := None;
      user := None;
    }

    /** `updateUser`. */
    method UpdateUser(u: User)
      modifies this`user
      ensures user == Some(u) && IsAuthenticated()
    {
      user := Some(u);
    }

    /**
     * `fetchUser`: without a token only the loading flag drops; a success
     * with a user signs that user in; a throw (an invalid or expired token)
     * clears token and user; loading has ended on every path.
     */
    method FetchUser(o: Outcome)
      modifies this`user, this`token, this`isLoading
      ensures !isLoading
      ensures old(token).None? || old(token) == Some("") ==> user == old(user) && token == old(token)
      ensures old(token).Some? && old(token) != Some("") ==>
        match o
        case Responded(resp) =>
          && token == old(token)
          && (SignsIn(resp) ==> user == Some(resp.data.value.user))
          && (!SignsIn(resp) ==> user == old(user))
        case Threw(_, _) => user == None && token == None
    {
      if token.None? || token == Some("") {
        isLoading := false;
        return;
      }
      match o {
        case Responded(resp) =>
          if resp.success && resp.data.Some? {
            user := Some(resp.data.value.user);
          }
        case Threw(_, _) =>
          token := None;
          user := None;
      }
      isLoading := false;
    }
  }

  /**
   * Against the server's `me`: a known user's token signs that user in; a
   * missing user or a refused token ends as a throw, which signs out.
   */
  lemma MeAgainstServer(r: Result<User, HttpError>)
    ensures MeReply(r).Responded? <==> r.Ok?
    ensures r.Ok? ==> SignsIn(MeReply(r).response) && MeReply(r).response.data.value.user == r.value
  {
  }
}
