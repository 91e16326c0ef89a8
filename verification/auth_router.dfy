/** The authentication endpoints' decisions: register refuses a taken email,
    login checks the password and issues two tokens for the email, and every
    protected endpoint resolves its caller from the bearer token. Password
    hashing and verification and token signing and decoding are input
    functions. */
module AuthRouter {
  import opened Wrappers
  import opened Models
  import opened UsersCrud

  const BadRequest := 400
  const Unauthorized := 401
  const EmailTaken := "Email already registered"
  const BadLogin := "Incorrect email or password"
  const BadCredentials := "Could not validate credentials"
  const Bearer := "bearer"
  const Subject := "sub"

  datatype HttpError = HttpError(status: int, detail: string)

  datatype Token = Token(accessToken: string, refreshToken: string, tokenType: string)

  /** A decoded token's claims; decoding fails on a bad signature or expiry. */
  type Claims = map<string, string>

  /** `register`: a taken email is refused with 400 and nothing is created. */
  method Register(users: UserTable, data: UserCreate, hash: string -> string) returns (r: Result<User, HttpError>)
    requires users.Valid()
    modifies users
    ensures users.Valid()
    ensures UserByEmail(old(users.rows), data.email).Some? ==>
      r == Err(HttpError(BadRequest, EmailTaken)) && users.rows == old(users.rows) && users.nextId == old(users.nextId)
    ensures UserByEmail(old(users.rows), data.email).None? ==>
      r.Ok? && r.value.email == data.email && r.value.passwordHash == hash(data.password)
      && users.rows == old(users.rows) + [r.value]
  {
    var existing := users.GetUserByEmail(data.email);
    if existing.Some? {
      return Err(HttpError(BadRequest, EmailTaken));
    }
    var created := users.CreateUser(data, hash);
    r := Ok(created.value);
  }

  /** `login`: an unknown email or a password that does not verify is 401;
      otherwise an access and a refresh token, both for the user's email. */
  function Login(rows: seq<User>, username: string, password: string, verify: (string, string) -> bool,
                 accessFor: string -> string, refreshFor: string -> string): (r: Result<Token, HttpError>)
    ensures r.Err? <==> UserByEmail(rows, username).None? || !verify(password, UserByEmail(rows, username).value.passwordHash)
    ensures r.Err? ==> r.error == HttpError(Unauthorized, BadLogin)
    ensures r.Ok? ==> r.value == Token(accessFor(username), refreshFor(username), Bearer)
  {
    match UserByEmail(rows, username)
    case None => Err(HttpError(Unauthorized, BadLogin))
    case Some(user) =>
      if !verify(password, user.passwordHash) then Err(HttpError(Unauthorized, BadLogin))
      else Ok(Token(accessFor(user.email), refreshFor(user.email), Bearer))
  }

  /** `get_current_user`: an undecodable token, a token without a subject or a
      subject no user has is 401; otherwise the user with that email. */
  function CurrentUser(rows: seq<User>, token: string, decode: string -> Option<Claims>): (r: Result<User, HttpError>)
    ensures r.Err? ==> r.error == HttpError(Unauthorized, BadCredentials)
    ensures r.Ok? <==> decode(token).Some? && Subject in decode(token).value
                       && UserByEmail(rows, decode(token).value[Subject]).Some?
    ensures r.Ok? ==> r.value in rows && r.value.email == decode(token).value[Subject]
  {
    match decode(token)
    case None => Err(HttpError(Unauthorized, BadCredentials))
    case Some(claims) =>
      if Subject !in claims then Err(HttpError(Unauthorized, BadCredentials))
      else match UserByEmail(rows, claims[Subject])
        case None => Err(HttpError(Unauthorized, BadCredentials))
        case Some(user) => Ok(user)
  }

  /** The access token login issues identifies the same user again, as long as
      it decodes to its subject claim. */
  lemma LoginTokenIdentifiesUser(rows: seq<User>, username: string, password: string, verify: (string, string) -> bool,
                                 accessFor: string -> string, refreshFor: string -> string,
                                 decode: string -> Option<Claims>)
    requires Login(rows, username, password, verify, accessFor, refreshFor).Ok?
    requires decode(accessFor(username)) == Some(map[Subject := username])
    ensures CurrentUser(rows, Login(rows, username, password, verify, accessFor, refreshFor).value.accessToken, decode)
            == Ok(UserByEmail(rows, username).value)
  {
  }

  /** A successful registration can be followed by a successful login with the
      same password, when verification accepts a password against its own hash. */
  method RegisterThenLogin(users: UserTable, data: UserCreate, hash: string -> string, verify: (string, string) -> bool,
                           accessFor: string -> string, refreshFor: string -> string)
      returns (token: Result<Token, HttpError>)
    requires users.Valid()
    requires verify(data.password, hash(data.password))
    requires UserByEmail(users.rows, data.email).None?
    modifies users
    ensures token == Ok(Token(accessFor(data.email), refreshFor(data.email), Bearer))
  {
    var registered := Register(users, data, hash);
    assert users.rows[|users.rows| - 1] == registered.value;
    token := Login(users.rows, data.email, data.password, verify, accessFor, refreshFor);
  }
}
