/**
 * Credentials sign-in for the single administrator account, and the callbacks that copy the
 * user's id and role into the token and from the token into the session. The password hash
 * check (`bcrypt.compare`) is foreign code and is passed in as `compare`.
 */
module Auth {
  import opened Wrappers
  import opened Env

  const AdminEmailVar := "ADMIN_EMAIL"
  const AdminPasswordHashVar := "ADMIN_PASSWORD_HASH"
  const DefaultAdminEmail := "admin@example.com"
  const InvalidCredentials := "Invalid credentials"
  const InvalidEmailOrPassword := "Invalid email or password"
  const AdminRole := "admin"

  /** `ADMIN_EMAIL` and `ADMIN_PASSWORD_HASH` as read once when the module loads. */
  datatype AdminSettings = AdminSettings(email: string, passwordHash: string)

  function Settings(env: Env): (s: AdminSettings)
    ensures s.email == (if IsSet(env, AdminEmailVar) then env[AdminEmailVar] else DefaultAdminEmail)
    ensures s.passwordHash == (if IsSet(env, AdminPasswordHashVar) then env[AdminPasswordHashVar] else "")
  {
    AdminSettings(Or(Lookup(env, AdminEmailVar), DefaultAdminEmail), Or(Lookup(env, AdminPasswordHashVar), ""))
  }

  /** The submitted form; either field may be missing. */
  datatype Credentials = Credentials(email: Option<string>, password: Option<string>)

  datatype User = User(id: string, email: string, name: string, role: string)

  /** The user signed in (or the error thrown) and whether the hash comparison was made. */
  datatype AuthorizeRun = AuthorizeRun(outcome: Result<User>, compared: bool)

  /** `authorize(credentials)`. */
  function Authorize(s: AdminSettings, credentials: Option<Credentials>, compare: (string, string) -> bool): (r: AuthorizeRun)
    // Missing fields are rejected before any hash comparison.
    ensures credentials.None? || !Truthy(credentials.value.email) || !Truthy(credentials.value.password) ==>
      r == AuthorizeRun(Err(InvalidCredentials), false)
    // The hash is compared only for the admin email and a configured hash.
    ensures r.compared <==> credentials.Some? && Truthy(credentials.value.email) && Truthy(credentials.value.password)
                            && credentials.value.email.value == s.email && s.passwordHash != ""
    // Success needs all three conditions and yields the fixed admin user.
    ensures r.outcome.Ok? <==> r.compared && compare(credentials.value.password.value, s.passwordHash)
    ensures r.outcome.Ok? ==> r.outcome.value == User("admin", s.email, "Admin", AdminRole)
    ensures r.outcome.Err? && credentials.Some? && Truthy(credentials.value.email) && Truthy(credentials.value.password) ==>
      r.outcome.message == InvalidEmailOrPassword
  {
    if credentials.None? || !Truthy(credentials.value.email) || !Truthy(credentials.value.password) then
      AuthorizeRun(Err(InvalidCredentials), false)
    else
      var c := credentials.value;
      if c.email.value == s.email && s.passwordHash != "" then
        if compare(c.password.value, s.passwordHash) then AuthorizeRun(Ok(User("admin", s.email, "Admin", AdminRole)), true)
        else AuthorizeRun(Err(InvalidEmailOrPassword), true)
      else AuthorizeRun(Err(InvalidEmailOrPassword), false)
  }

  /** With `ADMIN_PASSWORD_HASH` unset or empty, no sign-in succeeds, whatever the comparison says. */
  lemma NoHashNoLogin(env: Env, credentials: Option<Credentials>, compare: (string, string) -> bool)
    requires !IsSet(env, AdminPasswordHashVar)
    ensures Authorize(Settings(env), credentials, compare).outcome.Err?
    ensures !Authorize(Settings(env), credentials, compare).compared
  {
  }

  /** Only the configured admin email can sign in. */
  lemma OnlyAdminEmail(s: AdminSettings, credentials: Option<Credentials>, compare: (string, string) -> bool)
    requires Authorize(s, credentials, compare).outcome.Ok?
    ensures credentials.Some? && credentials.value.email == Some(s.email)
  {
  }

  /** A JWT: the claims NextAuth keeps, of which the callbacks write `id` and `role`. */
  class Token {
    var sub: Option<string>
    var name: Option<string>
    var email: Option<string>
    var id: Option<string>
    var role: Option<string>

    constructor (sub: Option<string>, name: Option<string>, email: Option<string>)
      ensures this.sub == sub && this.name == name && this.email == email
      ensures id.None? && role.None?
    {
      this.sub, this.name, this.email := sub, name, email;
      id, role := None, None;
    }
  }

  /** The user as the `jwt` callback receives it at sign-in. */
  datatype SignedIn = SignedIn(id: Option<string>, role: Option<string>)

  function AsSignedIn(u: User): SignedIn {
    SignedIn(Some(u.id), Some(u.role))
  }

  /** The `jwt` callback: at sign-in, records the user's id and role (`role || "admin"`) in the token. */
  method Jwt(token: Token, user: Option<SignedIn>) returns (r: Token)
    modifies token`id, token`role
    ensures r == token
    ensures user.None? ==> token.id == old(token.id) && token.role == old(token.role)
    ensures user.Some? ==> token.id == user.value.id && token.role == Some(Or(user.value.role, AdminRole))
  {
    if user.Some? {
      token.role := Some(Or(user.value.role, AdminRole));
      token.id := user.value.id;
    }
    r := token;
  }

  class SessionUser {
    var name: Option<string>
    var email: Option<string>
    var id: Option<string>
    var role: Option<string>

    constructor (name: Option<string>, email: Option<string>)
      ensures this.name == name && this.email == email && id.None? && role.None?
    {
      this.name, this.email := name, email;
      id, role := None, None;
    }
  }

  class Session {
    var user: SessionUser?

    constructor (user: SessionUser?)
      ensures this.user == user
    {
      this.user := user;
    }
  }

  /** The `session` callback: copies `id` and `role` from the token into `session.user`, if there is one. */
  method SessionCallback(session: Session, token: Token) returns (r: Session)
    modifies session.user
    ensures r == session && session.user == old(session.user)
    ensures session.user != null ==> session.user.id == token.id && session.user.role == token.role
    ensures session.user != null ==> session.user.name == old(session.user.name) && session.user.email == old(session.user.email)
  {
    if session.user != null {
      session.user.id := token.id;
      session.user.role := token.role;
    }
    r := session;
  }

  /** After sign-in, the session built from the token carries the user's id and effective role. */
  method SessionAfterSignIn(user: User) returns (id: Option<string>, role: Option<string>)
    ensures id == Some(user.id)
    ensures role == Some(if user.role == "" then AdminRole else user.role)
  {
    var token := new Token(None, Some(user.name), Some(user.email));
    token := Jwt(token, Some(AsSignedIn(user)));
    var sessionUser := new SessionUser(Some(user.name), Some(user.email));
    var session := new Session(sessionUser);
    session := SessionCallback(session, token);
    id, role := sessionUser.id, sessionUser.role;
  }
}
