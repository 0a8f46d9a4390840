/**
  The authentication service: token issue, register, login, refresh and
  token decoding, plus the current-user dependency that reads the subject
  of a decoded access token.

  The password hasher (bcrypt) and the token codec (JWT, HMAC with SHA-256)
  are foreign libraries. Each is a value holding its functions, and what the
  model relies on about them is a ghost predicate stated as a precondition
  where it is needed. The clock is the parameter `now`, seconds since the
  epoch in UTC.
*/
module AuthService {
  import opened Errors
  import opened Settings
  import opened UsersRepository

  /** A token's payload: its subject (the user id) and, if present, its expiry time. */
  datatype Claims = Claims(sub: int, exp: Option<int>)

  /**
    `jwt.encode` and the signature and format checks of `jwt.decode`, both
    bound to the configured secret and algorithm; `decode` gives `None` for
    a token that is malformed or carries another signature.
  */
  datatype TokenCodec = TokenCodec(encode: Claims -> string, decode: string -> Option<Claims>)

  /** What a token issued by the codec decodes to: its own claims. */
  ghost predicate CodecSound(codec: TokenCodec) {
    forall c :: codec.decode(codec.encode(c)) == Some(c)
  }

  /** The `CryptContext` of the service: `hash` and `verify`. */
  datatype PasswordHasher = PasswordHasher(hash: string -> string, verify: (string, string) -> bool)

  /** A hash verifies against its own password, and a bcrypt hash has 60 characters. */
  ghost predicate HasherSound(h: PasswordHasher) {
    forall p :: h.verify(p, h.hash(p)) && |h.hash(p)| == 60
  }

  datatype TokenPair = TokenPair(access: string, refresh: string, userId: int)

  datatype OAuth2TokenResponse = OAuth2TokenResponse(accessToken: string, tokenType: string, refreshToken: string)

  const BearerTokenType: string := "bearer"

  /** A payload whose expiry, if it has one, lies after `now` (section 4.1.4 of RFC 7519). */
  predicate LiveAt(c: Claims, now: int) {
    c.exp.None? || now < c.exp.value
  }

  /** The three outcomes of `jwt.decode`: the payload, `ExpiredSignatureError`, or another `PyJWTError`. */
  datatype Decoded = Valid(claims: Claims) | Expired | Invalid

  /** `jwt.decode`: the signature and format first, then the expiry against `now`. */
  function Verify(codec: TokenCodec, token: string, now: int): (r: Decoded)
    ensures r.Valid? <==> codec.decode(token).Some? && LiveAt(codec.decode(token).value, now)
    ensures r.Valid? ==> r.claims == codec.decode(token).value
    ensures r.Invalid? <==> codec.decode(token).None?
  {
    match codec.decode(token)
    case None => Invalid
    case Some(c) => if LiveAt(c, now) then Valid(c) else Expired
  }

  /** `hash_password`: the stored form fits the column and verifies against its own password. */
  function HashPassword(h: PasswordHasher, password: string): (hashed: string)
    ensures HasherSound(h) ==> |hashed| == 60 && h.verify(password, hashed)
  {
    h.hash(password)
  }

  /** `verify_password`: a password always verifies against its own hash. */
  function VerifyPassword(h: PasswordHasher, plain: string, hashed: string): (ok: bool)
    ensures HasherSound(h) && hashed == h.hash(plain) ==> ok
  {
    h.verify(plain, hashed)
  }

  /**
    `_create_tokens`: both tokens name the user, the access token expires
    `accessLifetime` seconds after `now` and the refresh token
    `refreshLifetime` seconds after it. Neither says which kind it is.
  */
  function CreateTokens(codec: TokenCodec, cfg: TokenSettings, userId: int, now: int): (r: TokenPair)
    ensures r.userId == userId
    ensures CodecSound(codec) ==>
      codec.decode(r.access) == Some(Claims(userId, Some(now + cfg.accessLifetime))) &&
      codec.decode(r.refresh) == Some(Claims(userId, Some(now + cfg.refreshLifetime)))
  {
    TokenPair(
      codec.encode(Claims(userId, Some(now + cfg.accessLifetime))),
      codec.encode(Claims(userId, Some(now + cfg.refreshLifetime))),
      userId)
  }

  /** `_as_oauth2_response`: a fresh pair for the user, typed "bearer". */
  function AsOAuth2Response(codec: TokenCodec, cfg: TokenSettings, userId: int, now: int): (r: OAuth2TokenResponse)
    ensures r.tokenType == BearerTokenType
    ensures CodecSound(codec) ==>
      codec.decode(r.accessToken) == Some(Claims(userId, Some(now + cfg.accessLifetime))) &&
      codec.decode(r.refreshToken) == Some(Claims(userId, Some(now + cfg.refreshLifetime)))
  {
    var tokens := CreateTokens(codec, cfg, userId, now);
    OAuth2TokenResponse(tokens.access, BearerTokenType, tokens.refresh)
  }

  /** `decode_jwt`: the payload of a live token; 401 "Token expired" or 401 "Invalid token" otherwise. */
  function DecodeJwt(codec: TokenCodec, token: string, now: int): (r: Result<Claims>)
    ensures r.Ok? <==> codec.decode(token).Some? && LiveAt(codec.decode(token).value, now)
    ensures r.Ok? ==> r.value == codec.decode(token).value
    ensures r.Err? ==> r.error == HttpError(Unauthorized,
      if codec.decode(token).Some? then "Token expired" else "Invalid token")
  {
    match Verify(codec, token, now)
    case Valid(c) => Ok(c)
    case Expired => Err(HttpError(Unauthorized, "Token expired"))
    case Invalid => Err(HttpError(Unauthorized, "Invalid token"))
  }

  /**
    `get_current_user_id`: the subject of the bearer token, or the error
    `decode_jwt` raised.
  */
  function CurrentUserId(codec: TokenCodec, token: string, now: int): (r: Result<int>)
    ensures r.Ok? <==> DecodeJwt(codec, token, now).Ok?
    ensures r.Ok? ==> r.value == codec.decode(token).value.sub
    ensures r.Err? ==> r.error == DecodeJwt(codec, token, now).error
  {
    var claims :- DecodeJwt(codec, token, now);
    Ok(claims.sub)
  }

  /**
    `refresh_oauth2_response`: any live token, whatever it was issued as,
    buys a fresh pair for its subject; 401 "Refresh token expired" or
    401 "Invalid refresh token" otherwise. Nothing is recorded, so a token
    stays usable until it expires.
  */
  function RefreshOAuth2Response(codec: TokenCodec, cfg: TokenSettings, token: string, now: int): (r: Result<OAuth2TokenResponse>)
    ensures r.Ok? <==> codec.decode(token).Some? && LiveAt(codec.decode(token).value, now)
    ensures r.Ok? ==> r.value == AsOAuth2Response(codec, cfg, codec.decode(token).value.sub, now)
    ensures r.Err? ==> r.error == HttpError(Unauthorized,
      if codec.decode(token).Some? then "Refresh token expired" else "Invalid refresh token")
  {
    match Verify(codec, token, now)
    case Valid(c) => Ok(AsOAuth2Response(codec, cfg, c.sub, now))
    case Expired => Err(HttpError(Unauthorized, "Refresh token expired"))
    case Invalid => Err(HttpError(Unauthorized, "Invalid refresh token"))
  }

  /**
    `login_oauth2_response`: a pair for the user when the username exists
    and the password verifies against its stored hash; one and the same 401
    "Invalid credentials" whichever check fails.
  */
  function LoginOAuth2Response(users: UserStore, hasher: PasswordHasher, codec: TokenCodec, cfg: TokenSettings,
                               username: string, password: string, now: int): (r: Result<OAuth2TokenResponse>)
    reads users
    ensures r.Ok? <==>
      users.GetByUsername(username).Some? &&
      hasher.verify(password, users.GetByUsername(username).value.password)
    ensures r.Ok? ==> r.value == AsOAuth2Response(codec, cfg, users.GetByUsername(username).value.id, now)
    ensures r.Err? ==> r.error == HttpError(Unauthorized, "Invalid credentials")
  {
    match users.GetByUsername(username)
    case None => Err(HttpError(Unauthorized, "Invalid credentials"))
    case Some(user) =>
      if !VerifyPassword(hasher, password, user.password) then Err(HttpError(Unauthorized, "Invalid credentials"))
      else Ok(AsOAuth2Response(codec, cfg, user.id, now))
  }

  /**
    `register_oauth2_response`: stores the user with the hash of the
    password and answers with a pair for the new id; when the store refuses
    the user, its 400 is the answer and no token is issued.
  */
  method RegisterOAuth2Response(users: UserStore, hasher: PasswordHasher, codec: TokenCodec, cfg: TokenSettings,
                                username: string, password: string, now: int) returns (r: Result<OAuth2TokenResponse>)
    requires users.Valid()
    modifies users
    ensures users.Valid()
    ensures r.Ok? <==> CreateFailureOf(old(users.rows), username, hasher.hash(password)).None?
    ensures r.Ok? ==>
      users.rows == old(users.rows) + [User(old(users.nextId), username, hasher.hash(password), DefaultAvatarUrl, now)] &&
      users.nextId == old(users.nextId) + 1 &&
      r.value == AsOAuth2Response(codec, cfg, old(users.nextId), now)
    ensures r.Err? ==>
      users.rows == old(users.rows) &&
      users.nextId == old(users.nextId) +
        (if CreateFailureOf(old(users.rows), username, hasher.hash(password)) == Some(UsernameTaken) then 1 else 0) &&
      r.error == HttpError(BadRequest, FailureText(CreateFailureOf(old(users.rows), username, hasher.hash(password)).value))
  {
    var hashed := HashPassword(hasher, password);
    var created := users.CreateUser(username, hashed, now);
    if created.Err? {
      return Err(created.error);
    }
    r := Ok(AsOAuth2Response(codec, cfg, created.value.id, now));
  }

  // ---------------------------------------------------------------------
  // Properties of the flow

  /**
    An issued pair lives by its clock: the access token decodes to the
    user until `accessLifetime` seconds have passed and is "Token expired"
    from then on; the refresh token buys a new pair until `refreshLifetime`
    seconds have passed and is "Refresh token expired" from then on.
  */
  lemma IssuedPairLifecycle(codec: TokenCodec, cfg: TokenSettings, userId: int, now: int, t: int)
    requires CodecSound(codec)
    ensures var issued := AsOAuth2Response(codec, cfg, userId, now);
      DecodeJwt(codec, issued.accessToken, t) ==
        (if t < now + cfg.accessLifetime then Ok(Claims(userId, Some(now + cfg.accessLifetime)))
         else Err(HttpError(Unauthorized, "Token expired"))) &&
      RefreshOAuth2Response(codec, cfg, issued.refreshToken, t) ==
        (if t < now + cfg.refreshLifetime then Ok(AsOAuth2Response(codec, cfg, userId, t))
         else Err(HttpError(Unauthorized, "Refresh token expired")))
  {
  }

  /** The current-user dependency reads back the id an access token was issued for, while it lives. */
  lemma IssuedAccessTokenAuthenticates(codec: TokenCodec, cfg: TokenSettings, userId: int, now: int, t: int)
    requires CodecSound(codec) && t < now + cfg.accessLifetime
    ensures CurrentUserId(codec, AsOAuth2Response(codec, cfg, userId, now).accessToken, t) == Ok(userId)
  {
  }

  /** Nothing tells the kinds apart: a live access token is accepted for refresh. */
  lemma AccessTokenIsAcceptedForRefresh(codec: TokenCodec, cfg: TokenSettings, userId: int, now: int, t: int)
    requires CodecSound(codec) && t < now + cfg.accessLifetime
    ensures RefreshOAuth2Response(codec, cfg, AsOAuth2Response(codec, cfg, userId, now).accessToken, t)
         == Ok(AsOAuth2Response(codec, cfg, userId, t))
  {
  }

  /**
    Refreshing keeps the subject, and since no rotation state is kept the
    old refresh token still works after it has been used, at any later
    time before its own expiry.
  */
  lemma RefreshKeepsSubjectAndAllowsReuse(codec: TokenCodec, cfg: TokenSettings, token: string, t1: int, t2: int)
    requires CodecSound(codec)
    requires RefreshOAuth2Response(codec, cfg, token, t1).Ok?
    requires codec.decode(token).value.exp.Some? ==> t2 < codec.decode(token).value.exp.value
    ensures var renewed := RefreshOAuth2Response(codec, cfg, token, t1).value;
      codec.decode(renewed.accessToken).value.sub == codec.decode(token).value.sub &&
      codec.decode(renewed.refreshToken).value.sub == codec.decode(token).value.sub
    ensures RefreshOAuth2Response(codec, cfg, token, t2) ==
      Ok(AsOAuth2Response(codec, cfg, codec.decode(token).value.sub, t2))
  {
  }

  /** A user whose stored hash is that of the password can log in, and gets a pair for their own id. */
  lemma StoredPasswordLogsIn(users: UserStore, hasher: PasswordHasher, codec: TokenCodec, cfg: TokenSettings,
                             k: nat, password: string, now: int)
    requires users.Valid() && HasherSound(hasher)
    requires k < |users.rows| && users.rows[k].password == hasher.hash(password)
    ensures LoginOAuth2Response(users, hasher, codec, cfg, users.rows[k].username, password, now)
         == Ok(AsOAuth2Response(codec, cfg, users.rows[k].id, now))
  {
    users.UsernameDeterminesUser(users.rows[k].username, k);
  }

  /** A bcrypt hash always fits the 128-character password column, so only the username can be refused. */
  lemma HashFitsPasswordColumn(users: UserStore, hasher: PasswordHasher, username: string, password: string)
    requires HasherSound(hasher)
    ensures CreateFailureOf(users.rows, username, hasher.hash(password)).None? <==>
      |username| <= UsernameMaxLength && users.GetByUsername(username).None?
  {
    assert |hasher.hash(password)| == 60;
  }

  // ---------------------------------------------------------------------
  // Issue time read from the local wall clock

  /**
    `_create_tokens` as written: `datetime.now()` is the local wall-clock
    time with no zone, and the JWT encoder turns a zone-less `exp` into a
    timestamp as if it were UTC. On a host `utcOffset` seconds east of UTC
    the expiry is therefore shifted by `utcOffset`.
  */
  function CreateTokensLocalClock(codec: TokenCodec, cfg: TokenSettings, userId: int, utcNow: int, utcOffset: int): (r: TokenPair)
    ensures r == CreateTokens(codec, cfg, userId, utcNow + utcOffset)
  {
    TokenPair(
      codec.encode(Claims(userId, Some(utcNow + utcOffset + cfg.accessLifetime))),
      codec.encode(Claims(userId, Some(utcNow + utcOffset + cfg.refreshLifetime))),
      userId)
  }

  /**
    Five hours west of UTC (UTC-05:00) with the default one-hour lifetime,
    the access token is already expired at the moment it is issued.
  */
  lemma LocalClockWestOfUtcIssuesExpiredAccessToken(codec: TokenCodec, userId: int, utcNow: int)
    requires CodecSound(codec)
    ensures DecodeJwt(codec, CreateTokensLocalClock(codec, DefaultTokens, userId, utcNow, -5 * 3600).access, utcNow)
         == Err(HttpError(Unauthorized, "Token expired"))
  {
    var pair := CreateTokensLocalClock(codec, DefaultTokens, userId, utcNow, -5 * 3600);
    assert codec.decode(pair.access) == Some(Claims(userId, Some(utcNow - 18000 + 3600)));
  }

  /** Read from the UTC clock, a token with a positive lifetime is valid when it is issued. */
  lemma UtcClockIssuesLiveTokens(codec: TokenCodec, cfg: TokenSettings, userId: int, now: int)
    requires CodecSound(codec) && cfg.accessLifetime > 0
    ensures DecodeJwt(codec, CreateTokens(codec, cfg, userId, now).access, now)
         == Ok(Claims(userId, Some(now + cfg.accessLifetime)))
  {
  }
}
