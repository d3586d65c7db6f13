/**
 * The sign-in configuration (src/lib/auth.ts): the credentials check and
 * the two callbacks that shape the JWT and the session.
 *
 * The user table lookup (`prisma.user.findUnique` by email) and the bcrypt
 * comparison are passed in as functions; the clock is a parameter.
 */
module Auth {
  import opened Wrappers
  import Permissions

  /** The sign-in form as submitted; either field may be missing. */
  datatype Credentials = Credentials(email: Option<string>, password: Option<string>)

  /** A row of the User table as far as sign-in needs it. */
  datatype StoredUser = StoredUser(id: string, email: string, name: string, role: string,
                                   passwordHash: string, isActive: bool)

  /** What `authorize` hands to next-auth. */
  datatype AuthUser = AuthUser(id: string, email: string, name: string, role: string)

  const MockUser := AuthUser("1", "owner@gym.com", "Demo Owner", Permissions.OWNER)

  /** Thirty days in seconds, for the mock token's expiry. */
  const ThirtyDaysSeconds := 30 * 24 * 60 * 60

  /** JavaScript truthiness of an optional string: present and non-empty. */
  predicate Truthy(s: Option<string>) {
    s.Some? && s.value != ""
  }

  /** The user row that `authorize` accepts for these credentials, if any. */
  predicate Accepted(credentials: Option<Credentials>,
                     findUser: string -> Option<StoredUser>,
                     passwordMatches: (string, string) -> bool)
  {
    credentials.Some? && Truthy(credentials.value.email) && Truthy(credentials.value.password) &&
    var found := findUser(credentials.value.email.value);
    found.Some? && found.value.isActive &&
    passwordMatches(credentials.value.password.value, found.value.passwordHash)
  }

  /**
   * `authorize(credentials)`: with `skipAuth` the fixed demo owner; otherwise
   * null unless both fields are non-empty, the email names an active user and
   * the password matches that user's hash.
   */
  function Authorize(skipAuth: bool, credentials: Option<Credentials>,
                     findUser: string -> Option<StoredUser>,
                     passwordMatches: (string, string) -> bool): (r: Option<AuthUser>)
    ensures skipAuth ==> r == Some(MockUser)
    ensures !skipAuth ==> (r.Some? <==> Accepted(credentials, findUser, passwordMatches))
    ensures !skipAuth && r.Some? ==>
      var u := findUser(credentials.value.email.value).value;
      r.value == AuthUser(u.id, u.email, u.name, u.role)
  {
    if skipAuth then Some(MockUser)
    else if credentials.None? || !Truthy(credentials.value.email) || !Truthy(credentials.value.password) then None
    else
      var user := findUser(credentials.value.email.value);
      if user.None? || !user.value.isActive then None
      else if !passwordMatches(credentials.value.password.value, user.value.passwordHash) then None
      else Some(AuthUser(user.value.id, user.value.email, user.value.name, user.value.role))
  }

  /** A missing or empty email or password never signs in (outside the mock). */
  lemma MissingCredentialsRejected(credentials: Option<Credentials>,
                                   findUser: string -> Option<StoredUser>,
                                   passwordMatches: (string, string) -> bool)
    requires credentials.None? || !Truthy(credentials.value.email) || !Truthy(credentials.value.password)
    ensures Authorize(false, credentials, findUser, passwordMatches).None?
  {
  }

  /** An unknown or deactivated user never signs in, whatever the password. */
  lemma InactiveOrUnknownRejected(email: string, password: string,
                                  findUser: string -> Option<StoredUser>,
                                  passwordMatches: (string, string) -> bool)
    requires findUser(email).None? || !findUser(email).value.isActive
    ensures Authorize(false, Some(Credentials(Some(email), Some(password))), findUser, passwordMatches).None?
  {
  }

  /** The decoded JWT as next-auth passes it to the callbacks; every claim may be absent. */
  class Token {
    var sub: Option<string>
    var name: Option<string>
    var email: Option<string>
    var role: Option<string>
    var iat: Option<int>
    var exp: Option<int>

    constructor (sub: Option<string>, name: Option<string>, email: Option<string>,
                 role: Option<string>, iat: Option<int>, exp: Option<int>)
      ensures this.sub == sub && this.name == name && this.email == email
      ensures this.role == role && this.iat == iat && this.exp == exp
    {
      this.sub, this.name, this.email := sub, name, email;
      this.role, this.iat, this.exp := role, iat, exp;
    }
  }

  /**
   * The `jwt` callback. With `skipAuth` it returns a new demo-owner token
   * issued at `nowMs` (one clock reading), valid thirty days, and leaves the
   * incoming token alone. Otherwise it returns the incoming token, whose
   * role is overwritten by the signing-in user's role when there is one.
   */
  method Jwt(skipAuth: bool, nowMs: nat, token: Token, user: Option<AuthUser>) returns (r: Token)
    modifies token
    ensures skipAuth ==> fresh(r) && unchanged(token)
    ensures skipAuth ==>
      r.sub == Some("1") && r.name == Some("Demo Owner") && r.email == Some("owner@gym.com") &&
      r.role == Some(Permissions.OWNER) && r.iat == Some(nowMs / 1000) &&
      r.exp == Some(nowMs / 1000 + ThirtyDaysSeconds)
    ensures !skipAuth ==> r == token
    ensures !skipAuth ==> token.role == (if user.Some? then Some(user.value.role) else old(token.role))
    ensures !skipAuth ==>
      token.sub == old(token.sub) && token.name == old(token.name) && token.email == old(token.email) &&
      token.iat == old(token.iat) && token.exp == old(token.exp)
  {
    if skipAuth {
      var issued := nowMs / 1000;
      r := new Token(Some("1"), Some("Demo Owner"), Some("owner@gym.com"), Some(Permissions.OWNER),
                     Some(issued), Some(issued + ThirtyDaysSeconds));
      return;
    }
    if user.Some? {
      token.role := Some(user.value.role);
    }
    r := token;
  }

  /** `session.user` as the client sees it. */
  class SessionUser {
    var id: Option<string>
    var name: Option<string>
    var email: Option<string>
    var role: Option<string>

    constructor (id: Option<string>, name: Option<string>, email: Option<string>, role: Option<string>)
      ensures this.id == id && this.name == name && this.email == email && this.role == role
    {
      this.id, this.name, this.email, this.role := id, name, email, role;
    }
  }

  /** A next-auth session; `expires` is the expiry instant in epoch milliseconds. */
  class Session {
    var user: SessionUser
    var expires: int

    constructor (user: SessionUser, expires: int)
      ensures this.user == user && this.expires == expires
    {
      this.user, this.expires := user, expires;
    }
  }

  /**
   * The `session` callback. With `skipAuth` a new demo-owner session that
   * expires thirty days after `nowMs`; otherwise the incoming session, whose
   * user takes the token's subject as id and the token's role.
   */
  method SessionCallback(skipAuth: bool, nowMs: int, session: Session, token: Token?) returns (r: Session)
    modifies session.user
    ensures skipAuth ==> fresh(r) && fresh(r.user) && unchanged(session.user)
    ensures skipAuth ==>
      r.user.id == Some("1") && r.user.name == Some("Demo Owner") &&
      r.user.email == Some("owner@gym.com") && r.user.role == Some(Permissions.OWNER) &&
      r.expires == nowMs + ThirtyDaysSeconds * 1000
    ensures !skipAuth ==> r == session && r.user == old(session.user)
    ensures !skipAuth && token != null ==> r.user.id == token.sub && r.user.role == token.role
    ensures !skipAuth && token == null ==> unchanged(session.user)
    ensures !skipAuth ==> r.user.name == old(session.user.name) && r.user.email == old(session.user.email)
  {
    if skipAuth {
      var u := new SessionUser(Some("1"), Some("Demo Owner"), Some("owner@gym.com"), Some(Permissions.OWNER));
      r := new Session(u, nowMs + ThirtyDaysSeconds * 1000);
      return;
    }
    if token != null {
      session.user.id := token.sub;
      session.user.role := token.role;
    }
    r := session;
  }
}
