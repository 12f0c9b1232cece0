/** The authentication endpoints of the backend (`AuthController`): sign-in
    with one generic failure message, sign-up with its guard order and
    password length, sign-out, and token validation from the
    `Authorization` header. The authentication manager's verdict and the
    JWT utilities are parameters; the security context is an object the
    endpoints write. */
module AuthApi {
  import opened Common
  import opened Users

  /** The JWT utilities: token generation for a signed-in email, signature
      and expiry check, and the email a token names. */
  datatype JwtUtils = JwtUtils(generate: string -> string, validate: string -> bool, userNameFrom: string -> string)

  /** `SecurityContextHolder`'s context: the email of the authenticated
      principal, if any. */
  class SecurityContext {
    var authentication: Option<string>

    constructor ()
      ensures authentication.None?
    {
      authentication := None;
    }
  }

  /** The body of a reply: HTTP status, `success`, `message`, and the
      `token`, `valid` and user email entries where the endpoint sets them. */
  datatype Reply = Reply(code: int, success: bool, message: string, token: Option<string>, valid: Option<bool>,
                         email: Option<string>)

  function Failure(message: string): Reply
  {
    Reply(400, false, message, None, None, None)
  }

  const MIN_PASSWORD_LENGTH: int := 6
  const BEARER: string := "Bearer "

  /** The token of an `Authorization` header: what follows "Bearer ", when
      the header starts with it. The header is required, so a request
      without one never reaches the endpoint. */
  function BearerToken(header: string): (t: Option<string>)
    ensures t.Some? <==> StartsWith(header, BEARER)
    ensures t.Some? ==> header == BEARER + t.value
  {
    if StartsWith(header, BEARER) then
      assert header == BEARER + header[|BEARER|..];
      Some(header[|BEARER|..])
    else None
  }

  /** A header built from a token gives the token back. */
  lemma BearerTokenRoundTrip(token: string)
    ensures BearerToken(BEARER + token) == Some(token)
  {
    StartsWithConcat(BEARER, token);
  }

  /** Java's `String.length()`: the number of UTF-16 code units, two for a
      character outside the Basic Multilingual Plane. */
  function Utf16Length(s: string): (n: nat)
    ensures |s| <= n <= 2 * |s|
  {
    if s == [] then 0
    else Utf16Length(s[..|s| - 1]) + (if s[|s| - 1] as int >= 0x1_0000 then 2 else 1)
  }

  /** Three emoji are six UTF-16 units, enough for the length rule, though
      they are only three characters. */
  lemma ThreeEmojiPassLengthRule()
    ensures |"\U{1F600}\U{1F600}\U{1F600}"| == 3
    ensures Utf16Length("\U{1F600}\U{1F600}\U{1F600}") == MIN_PASSWORD_LENGTH
  {
    var e := "\U{1F600}\U{1F600}\U{1F600}";
    assert e[..2][..1] == e[..1] && e[..1][..0] == [];
    assert e[..3] == e && e[..3][..2] == e[..2];
  }

  /** `signInUser`. `verdict` is the authentication manager's answer: the
      authenticated email, or the message of whatever it threw. Every
      failure gets the same message. */
  method SignInUser(context: SecurityContext, jwt: JwtUtils, verdict: Result<string, string>) returns (r: Reply)
    modifies context
    ensures verdict.Err? ==>
      r == Failure("Invalid email or password") && context.authentication == old(context.authentication)
    ensures verdict.Ok? ==>
      && r == Reply(200, true, "Sign in successful", Some(jwt.generate(verdict.value)), None, Some(verdict.value))
      && context.authentication == Some(verdict.value)
  {
    if verdict.Err? {
      return Failure("Invalid email or password");
    }
    context.authentication := Some(verdict.value);
    r := Reply(200, true, "Sign in successful", Some(jwt.generate(verdict.value)), None, Some(verdict.value));
  }

  /** `signUpUser`: a taken email is refused before the password is looked
      at; a password shorter than six UTF-16 units is refused before anything is
      saved. The
      registration is its own transaction, so a failed automatic sign-in
      afterwards leaves the new user in place. */
  method SignUpUser(context: SecurityContext, service: UserService, jwt: JwtUtils, email: string, password: string,
                    fullName: string, verdict: Result<string, string>) returns (r: Reply)
    requires service.Valid()
    modifies context, service
    ensures service.Valid()
    ensures old(EmailIn(service.users, email)) ==>
      r == Failure("Email is already registered!")
      && service.users == old(service.users) && context.authentication == old(context.authentication)
    ensures !old(EmailIn(service.users, email)) && Utf16Length(password) < MIN_PASSWORD_LENGTH ==>
      r == Failure("Password must be at least 6 characters long")
      && service.users == old(service.users) && context.authentication == old(context.authentication)
    ensures !old(EmailIn(service.users, email)) && Utf16Length(password) >= MIN_PASSWORD_LENGTH ==>
      && (exists id | id !in old(service.users) ::
            service.users == old(service.users)[id := Registered(id, email, service.encoder.encode(password), fullName)])
      && (verdict.Err? ==>
            r == Failure("Registration failed: " + verdict.error) && context.authentication == old(context.authentication))
      && (verdict.Ok? ==>
            r == Reply(200, true, "Account created successfully!", Some(jwt.generate(verdict.value)), None, Some(email))
            && context.authentication == Some(verdict.value))
  {
    if service.ExistsByEmail(email) {
      return Failure("Email is already registered!");
    }
    if Utf16Length(password) < MIN_PASSWORD_LENGTH {
      return Failure("Password must be at least 6 characters long");
    }
    var registered := service.RegisterUser(email, password, fullName);
    if verdict.Err? {
      return Failure("Registration failed: " + verdict.error);
    }
    context.authentication := Some(verdict.value);
    r := Reply(200, true, "Account created successfully!", Some(jwt.generate(verdict.value)), None, Some(email));
  }

  /** `signOutUser`. */
  method SignOutUser(context: SecurityContext) returns (r: Reply)
    modifies context
    ensures context.authentication.None?
    ensures r == Reply(200, true, "Sign out successful", None, None, None)
  {
    context.authentication := None;
    r := Reply(200, true, "Sign out successful", None, None, None);
  }

  /** `validateToken`: only a "Bearer " header whose token passes the check
      and names a known user is valid. */
  method ValidateToken(service: UserService, jwt: JwtUtils, header: string) returns (r: Reply)
    requires service.Valid()
    ensures r.valid == Some(true) <==>
      && BearerToken(header).Some?
      && jwt.validate(BearerToken(header).value)
      && EmailIn(service.users, jwt.userNameFrom(BearerToken(header).value))
    ensures r.valid == Some(true) ==>
      r == Reply(200, true, "", None, Some(true), Some(jwt.userNameFrom(BearerToken(header).value)))
    ensures BearerToken(header).None? || !jwt.validate(BearerToken(header).value) ==>
      r == Reply(400, false, "Invalid or expired token", None, Some(false), None)
    ensures (&& BearerToken(header).Some? && jwt.validate(BearerToken(header).value)
             && !EmailIn(service.users, jwt.userNameFrom(BearerToken(header).value))) ==>
      r == Reply(400, false, "Token validation failed", None, Some(false), None)
  {
    var token := BearerToken(header);
    if token.Some? && jwt.validate(token.value) {
      var email := jwt.userNameFrom(token.value);
      var user := service.FindByEmail(email);
      if user.None? {
        return Reply(400, false, "Token validation failed", None, Some(false), None);
      }
      return Reply(200, true, "", None, Some(true), Some(user.value.email));
    }
    r := Reply(400, false, "Invalid or expired token", None, Some(false), None);
  }
}
