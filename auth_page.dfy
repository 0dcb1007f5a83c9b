/**
 * The sign-in screen, src/pages/AuthPage.tsx: the login and registration
 * schemas, how validation issues and the server's field errors become the
 * messages under each field, the account-type gate of registration, and
 * where a signed-in user is sent.
 */
module AuthPage {
  import opened Common
  import opened Text
  import opened Forms
  import Auth
  import Products
  import AuthContext

  /** `loginSchema` (AuthPage.tsx:14-17). */
  const LoginRules: seq<Rule> := [
    Email("email", "Invalid email address"),
    MinLength("password", 6, "Password must be at least 6 characters")
  ]

  /** `registerSchema` (AuthPage.tsx:19-23). */
  const RegisterRules: seq<Rule> := [
    MinLength("name", 2, "Name must be at least 2 characters"),
    Email("email", "Invalid email address"),
    MinLength("password", 6, "Password must be at least 6 characters")
  ]

  function LoginValues(email: string, password: string): map<string, string>
  {
    map["email" := email, "password" := password]
  }

  function RegisterValues(name: string, email: string, password: string): map<string, string>
  {
    map["name" := name, "email" := email, "password" := password]
  }

  /**
   * A login attempt is refused by the client with an error under the
   * e-mail exactly when it is not an address, and under the password
   * exactly when that has fewer than six characters.
   */
  lemma LoginErrors(email: string, password: string, isEmail: string -> bool)
    ensures var errs := LastMessages(Validate(LoginRules, LoginValues(email, password), isEmail));
      && ("email" in errs <==> !isEmail(email))
      && ("password" in errs <==> |password| < 6)
      && ("email" in errs ==> errs["email"] == "Invalid email address")
      && ("password" in errs ==> errs["password"] == "Password must be at least 6 characters")
      && errs.Keys <= {"email", "password"}
  {
    ErrorsOfFailingRules(LoginRules, LoginValues(email, password), isEmail);
    assert LoginRules[0].field == "email" && LoginRules[1].field == "password";
  }

  /**
   * What passes the registration schema also passes the server's required
   * check (auth.php:38-42), provided every e-mail address the client
   * accepts has at least two characters: the body it posts is complete.
   */
  lemma RegisterValidatedIsComplete(name: string, email: string, password: string, role: string,
                                    isEmail: string -> bool)
    requires forall e :: isEmail(e) ==> |e| >= 2
    requires Validate(RegisterRules, RegisterValues(name, email, password), isEmail) == []
    ensures Auth.Complete(AuthContext.RegisterBody(name, email, password, role))
  {
    var v := RegisterValues(name, email, password);
    ValidateEmptyIff(RegisterRules, v, isEmail);
    RegisterValuesLookup(name, email, password);
    assert Passes(RegisterRules[0], name, isEmail);
    assert Passes(RegisterRules[1], email, isEmail);
    assert Passes(RegisterRules[2], password, isEmail);
    BodyComplete(name, email, password, role);
  }

  lemma RegisterValuesLookup(name: string, email: string, password: string)
    ensures var v := RegisterValues(name, email, password);
      v["name"] == name && v["email"] == email && v["password"] == password
  {
    assert "name" != "email" && "name" != "password" && "email" != "password";
  }

  lemma BodyComplete(name: string, email: string, password: string, role: string)
    requires |name| >= 2 && |email| >= 2 && |password| >= 2
    ensures Auth.Complete(AuthContext.RegisterBody(name, email, password, role))
  {
    var b := AuthContext.RegisterBody(name, email, password, role);
    assert !PhpEmpty(b["name"]) && !PhpEmpty(b["email"]) && !PhpEmpty(b["password"]);
  }

  /** `Object.fromEntries(entries.map(([key, value]) => [key, value[0]]))`; an empty list shows nothing (""). */
  function ServerFieldErrors(errors: map<string, seq<string>>): (r: map<string, string>)
    ensures r.Keys == errors.Keys
    ensures forall k :: k in errors && |errors[k]| > 0 ==> r[k] == errors[k][0]
  {
    map k | k in errors :: if |errors[k]| > 0 then errors[k][0] else ""
  }

  /**
   * A registration the server refuses for a taken e-mail reaches the page
   * as a failure with the message "Validation failed" and one field error,
   * under the e-mail.
   */
  lemma DuplicateEmailShown()
    ensures var r := AuthContext.Settle(AuthContext.SessionReply(Err(Auth.EmailTaken), "Registration successful"), "Registration failed");
      && !r.success && r.message == "Validation failed" && r.errors.Some?
      && ServerFieldErrors(r.errors.value) == map["email" := "Email already registered"]
  {
    var r := AuthContext.Settle(AuthContext.SessionReply(Err(Auth.EmailTaken), "Registration successful"), "Registration failed");
    assert "email" in Auth.EmailTaken.errors;
    assert r.errors == Some(map["email" := ["Email already registered"]]);
    assert ServerFieldErrors(r.errors.value).Keys == {"email"};
  }

  /**
   * The redirect of a signed-in user: the page they came from, else
   * "/vendor" for a vendor and "/" for anyone else (`from || ...`).
   */
  function RedirectPath(from: string, role: string): (path: string)
    ensures from != "" ==> path == from
    ensures from == "" && role == "vendor" ==> path == "/vendor"
    ensures from == "" && role != "vendor" ==> path == "/"
  {
    if from != "" then from else if role == "vendor" then "/vendor" else "/"
  }

  /** The page's own state: the field errors, the loading flag and the chosen account type. */
  class AuthForm {
    var errors: map<string, string>
    var isLoading: bool
    var selectedRole: Option<string>

    constructor ()
      ensures errors == map[] && !isLoading && selectedRole == None
    {
      errors := map[];
      isLoading := false;
      selectedRole := None;
    }

    /** The errors a settled response leaves: the server's field errors on a failure that has them. */
    static function ErrorsAfter(r: AuthContext.AuthResponse): map<string, string>
    {
      if !r.success && r.errors.Some? then ServerFieldErrors(r.errors.value) else map[]
    }

    /**
     * `handleLogin`: a refused form shows its issues and never calls the
     * session; an accepted one calls `login` and shows the server's field
     * errors when it fails. `attempted` tells whether the call was made.
     */
    method HandleLogin(email: string, password: string, isEmail: string -> bool,
                       session: AuthContext.Session, o: AuthContext.Outcome) returns (attempted: bool)
      modifies this`errors, this`isLoading, session`user, session`token
      ensures var issues := Validate(LoginRules, LoginValues(email, password), isEmail);
        && (attempted <==> issues == [])
        && (!attempted ==> errors == LastMessages(issues) && session.user == old(session.user) && session.token == old(session.token))
      ensures attempted ==>
        var r := AuthContext.Settle(o, "Login failed");
        && errors == ErrorsAfter(r) && !isLoading
        && (AuthContext.SignsIn(r) ==> session.user == Some(r.data.value.user) && session.token == r.data.value.token)
        && (!AuthContext.SignsIn(r) ==> session.user == old(session.user) && session.token == old(session.token))
    {
      errors := map[];
      var issues := Validate(LoginRules, LoginValues(email, password), isEmail);
      if issues != [] {
        errors := FieldErrors(issues);
        return false;
      }
      isLoading := true;
      var r := session.Login(email, password, o);
      isLoading := false;
      if !r.success && r.errors.Some? {
        errors := ServerFieldErrors(r.errors.value);
      }
      attempted := true;
    }

    /**
     * `handleRegister`: without an account type nothing else happens and
     * no error is shown; then as `handleLogin`, with the registration schema
     * and the chosen role sent along.
     */
    method HandleRegister(name: string, email: string, password: string, isEmail: string -> bool,
                          session: AuthContext.Session, o: AuthContext.Outcome) returns (attempted: bool)
      modifies this`errors, this`isLoading, session`user, session`token
      ensures var issues := Validate(RegisterRules, RegisterValues(name, email, password), isEmail);
        && (attempted <==> selectedRole.Some? && issues == [])
        && (selectedRole.None? ==> errors == map[])
        && (selectedRole.Some? && issues != [] ==> errors == LastMessages(issues))
        && (!attempted ==> session.user == old(session.user) && session.token == old(session.token))
      ensures attempted ==>
        var r := AuthContext.Settle(o, "Registration failed");
        && errors == ErrorsAfter(r) && !isLoading
        && (AuthContext.SignsIn(r) ==> session.user == Some(r.data.value.user) && session.token == r.data.value.token)
        && (!AuthContext.SignsIn(r) ==> session.user == old(session.user) && session.token == old(session.token))
    {
      errors := map[];
      if selectedRole.None? {
        return false;
      }
      var issues := Validate(RegisterRules, RegisterValues(name, email, password), isEmail);
      if issues != [] {
        errors := FieldErrors(issues);
        return false;
      }
      isLoading := true;
      var r := session.Register(name, email, password, selectedRole.value, o);
      isLoading := false;
      if !r.success && r.errors.Some? {
        errors := ServerFieldErrors(r.errors.value);
      }
      attempted := true;
    }
  }
}
