/**
  The `/auth` endpoints: register, login and refresh, each delegating to
  the authentication service once its input is accepted.
*/
module UsersRouter {
  import opened Errors
  import opened Settings
  import opened UsersRepository
  import opened UserSchema
  import opened AuthService

  /** A form field as the framework reads it: an empty value counts as absent. */
  function FormField(v: Option<string>): (r: Option<string>)
    ensures r.Some? <==> v.Some? && v.value != ""
    ensures r.Some? ==> r == v
  {
    if v.Some? && v.value == "" then None else v
  }

  const PasswordGrantType: string := "password"
  const GrantTypeDetail: string := "Only grant_type=password is supported"

  /** `OAuth2PasswordRequestForm` once the framework has validated it. */
  datatype PasswordRequestForm = PasswordRequestForm(grantType: Option<string>, username: string, password: string)

  /**
    The validation of `OAuth2PasswordRequestForm` (FastAPI 0.100 and later,
    the versions built on pydantic 2): `grant_type` is optional but, when
    present, must match `^password$`, the password grant of section 4.3.2
    of RFC 6749; `username` and `password` are required. An empty field is
    treated as a missing one. A failure is a 422 before the handler runs.
  */
  function ValidatePasswordRequestForm(grantType: Option<string>, username: Option<string>, password: Option<string>)
    : (r: Result<PasswordRequestForm>)
    ensures r.Ok? <==>
      (FormField(grantType).None? || grantType.value == PasswordGrantType) &&
      FormField(username).Some? && FormField(password).Some?
    ensures r.Ok? ==> r.value == PasswordRequestForm(FormField(grantType), username.value, password.value)
    ensures r.Err? ==> r.error.ValidationError?
    ensures FormField(grantType).Some? && grantType.value != PasswordGrantType ==>
      r == Err(ValidationError("grant_type"))
  {
    var g := FormField(grantType);
    if g.Some? && g.value != PasswordGrantType then Err(ValidationError("grant_type"))
    else if FormField(username).None? then Err(ValidationError("username"))
    else if FormField(password).None? then Err(ValidationError("password"))
    else Ok(PasswordRequestForm(g, username.value, password.value))
  }

  /**
    `login_user`: the framework validates the form, then the handler's own
    `grant_type` guard runs (it tests the value's truth first), then login
    with the form's username and password.
  */
  function LoginUser(users: UserStore, hasher: PasswordHasher, codec: TokenCodec, cfg: TokenSettings,
                     grantType: Option<string>, username: Option<string>, password: Option<string>, now: int)
    : (r: Result<OAuth2TokenResponse>)
    reads users
    ensures ValidatePasswordRequestForm(grantType, username, password).Err? ==>
      r == Err(ValidatePasswordRequestForm(grantType, username, password).error)
    ensures ValidatePasswordRequestForm(grantType, username, password).Ok? ==>
      r == LoginOAuth2Response(users, hasher, codec, cfg, username.value, password.value, now)
  {
    var form :- ValidatePasswordRequestForm(grantType, username, password);
    if form.grantType.Some? && form.grantType.value != "" && form.grantType.value != PasswordGrantType then
      Err(HttpError(BadRequest, GrantTypeDetail))
    else
      LoginOAuth2Response(users, hasher, codec, cfg, form.username, form.password, now)
  }

  /** Every grant type other than `password` is refused by the form, before any credential is looked at. */
  lemma OtherGrantTypesNeverReachLogin(users: UserStore, hasher: PasswordHasher, codec: TokenCodec, cfg: TokenSettings,
                                       grantType: string, username: Option<string>, password: Option<string>, now: int)
    requires grantType != "" && grantType != PasswordGrantType
    ensures LoginUser(users, hasher, codec, cfg, Some(grantType), username, password, now) == Err(ValidationError("grant_type"))
  {
  }

  /**
    The handler's guard is dead code behind the form's pattern: no request
    is ever answered with its 400, and a missing or empty username or
    password is a 422, never a 401.
  */
  lemma HandlerGuardNeverFires(users: UserStore, hasher: PasswordHasher, codec: TokenCodec, cfg: TokenSettings,
                               grantType: Option<string>, username: Option<string>, password: Option<string>, now: int)
    ensures LoginUser(users, hasher, codec, cfg, grantType, username, password, now) != Err(HttpError(BadRequest, GrantTypeDetail))
    ensures FormField(username).None? || FormField(password).None? ==>
      LoginUser(users, hasher, codec, cfg, grantType, username, password, now).Err? &&
      LoginUser(users, hasher, codec, cfg, grantType, username, password, now).error.ValidationError?
  {
  }

  /**
    `register_user`: the body is validated first (a 422 leaves the store
    as it was), then its username and password go unchanged to the service.
  */
  method RegisterUser(users: UserStore, hasher: PasswordHasher, codec: TokenCodec, cfg: TokenSettings,
                      username: Option<string>, password: Option<string>, now: int) returns (r: Result<OAuth2TokenResponse>)
    requires users.Valid()
    modifies users
    ensures users.Valid()
    ensures ValidateRegisterRequest(username, password).Err? ==>
      r == Err(ValidateRegisterRequest(username, password).error) &&
      users.rows == old(users.rows) && users.nextId == old(users.nextId)
    ensures ValidateRegisterRequest(username, password).Ok? ==>
      (r.Ok? <==> CreateFailureOf(old(users.rows), username.value, hasher.hash(password.value)).None?) &&
      (r.Err? ==> r.error == HttpError(BadRequest,
        FailureText(CreateFailureOf(old(users.rows), username.value, hasher.hash(password.value)).value))) &&
      users.nextId == old(users.nextId) +
        (if CreateFailureOf(old(users.rows), username.value, hasher.hash(password.value)) != Some(UsernameTaken) && r.Err? then 0 else 1)
    ensures r.Ok? ==>
      users.rows == old(users.rows) + [User(old(users.nextId), username.value, hasher.hash(password.value), DefaultAvatarUrl, now)] &&
      r.value == AsOAuth2Response(codec, cfg, old(users.nextId), now)
    ensures r.Err? ==> users.rows == old(users.rows)
  {
    var request := ValidateRegisterRequest(username, password);
    if request.Err? {
      return Err(request.error);
    }
    r := RegisterOAuth2Response(users, hasher, codec, cfg, request.value.username, request.value.password, now);
  }

  /** `refresh_token`: the query parameter goes unchanged to the service. */
  function RefreshToken(codec: TokenCodec, cfg: TokenSettings, refreshToken: string, now: int): (r: Result<OAuth2TokenResponse>)
    ensures r == RefreshOAuth2Response(codec, cfg, refreshToken, now)
  {
    RefreshOAuth2Response(codec, cfg, refreshToken, now)
  }

  /**
    A sound hasher and a valid request leave only the unique username to
    decide registration: every accepted request with a fresh username
    is stored.
  */
  lemma ValidRequestWithFreshUsernameRegisters(users: UserStore, hasher: PasswordHasher,
                                               username: Option<string>, password: Option<string>)
    requires HasherSound(hasher)
    requires ValidateRegisterRequest(username, password).Ok?
    requires users.GetByUsername(username.value).None?
    ensures CreateFailureOf(users.rows, username.value, hasher.hash(password.value)).None?
  {
    AcceptedUsernameFitsColumn(username, password);
    HashFitsPasswordColumn(users, hasher, username.value, password.value);
  }
}
