/**
  A client's walk through the service, from an empty database: "alice"
  registers, presents her access token, creates a notification, lists it,
  deletes it and lists again; a second registration under her name fails.
*/
module Scenario {
  import opened Errors
  import opened Pagination
  import opened NotificationSchema
  import opened UsersRepository
  import opened NotificationsRepository
  import opened Settings
  import opened AuthService
  import opened UsersRouter
  import UserSchema

  const FirstPage: Pagination := Pagination(1, 50, Asc)

  /** One notification of alice's: the first page holds it, and there is one page. */
  lemma ListingOfOne(n: Notification)
    requires n.id == 1 && n.userId == 1
    ensures ListPage([n], 1, FirstPage) == NotificationReadPagination(1, 1, 1, 1, [ReadView(n)])
  {
    assert Owned([n], 1) == [n];
    assert OwnerSorted([n], 1, Asc) == [n];
    assert CeilDiv(1, 50) == 1;
  }

  /** No notification: nothing to count, no page. */
  lemma ListingOfNone()
    ensures ListPage([], 1, FirstPage) == NotificationReadPagination(0, 0, 1, 0, [])
  {
  }

  /** Registration on an empty store succeeds with id 1. */
  method RegisterAlice(users: UserStore, hasher: PasswordHasher, codec: TokenCodec, now: int)
    returns (registered: Result<OAuth2TokenResponse>)
    requires HasherSound(hasher) && users.Valid() && users.rows == [] && users.nextId == 1
    modifies users
    ensures users.Valid() && users.Ids() == {1}
    ensures users.rows == [User(1, "alice", hasher.hash("secret1"), DefaultAvatarUrl, now)]
    ensures registered == Ok(AsOAuth2Response(codec, DefaultTokens, 1, now))
  {
    assert |hasher.hash("secret1")| == 60;
    registered := RegisterUser(users, hasher, codec, DefaultTokens, Some("alice"), Some("secret1"), now);
    assert users.rows[0].id == 1;
    assert users.Ids() == {1};
  }

  /**
    Once "alice" exists, registering her name again is refused, whatever the
    password, and the id the refused INSERT drew is used up.
  */
  method RegisterAliceAgain(users: UserStore, hasher: PasswordHasher, codec: TokenCodec, password: string, now: int)
    returns (again: Result<OAuth2TokenResponse>)
    requires HasherSound(hasher) && users.Valid() && |users.rows| == 1 && users.rows[0].username == "alice"
    requires 6 <= |password| <= 128
    modifies users
    ensures users.Valid() && users.rows == old(users.rows)
    ensures users.nextId == old(users.nextId) + 1
    ensures again == Err(HttpError(BadRequest, FailureText(UsernameTaken)))
  {
    assert |hasher.hash(password)| == 60;
    assert UserSchema.ValidateRegisterRequest(Some("alice"), Some(password)) == Ok(UserSchema.RegisterRequest("alice", password));
    assert FindByUsername(users.rows, "alice") == Some(users.rows[0]);
    assert CreateFailureOf(users.rows, "alice", hasher.hash(password)) == Some(UsernameTaken);
    again := RegisterUser(users, hasher, codec, DefaultTokens, Some("alice"), Some(password), now);
  }

  /** Alice creates one notification, lists it, deletes it and lists again. */
  method CreateListDelete(users: UserStore, notifications: NotificationRepository, now: int)
    returns (before: NotificationReadPagination, after: NotificationReadPagination)
    requires users.Valid() && users.Ids() == {1}
    requires notifications.Valid() && notifications.rows == [] && notifications.nextId == 1
    modifies notifications
    ensures notifications.Valid() && notifications.rows == []
    ensures before == NotificationReadPagination(1, 1, 1, 1, [NotificationRead(1, "like", "hi", now, 1)])
    ensures after == NotificationReadPagination(0, 0, 1, 0, [])
  {
    var payload := ValidateNotificationCreate(Some("like"), Some("hi"));
    var created := notifications.CreateNotificationForUser(users, 1, payload.value, now);
    var n := Notification(1, 1, Like, "hi", now);
    assert notifications.rows == [n];

    var page := GeneratePaginationQueryParams(Some(1), Some(50), Some("asc"));
    assert page == Ok(FirstPage);
    ListingOfOne(n);
    before := notifications.GetUserNotifications(1, page.value);

    var deleted := notifications.DeleteUserNotification(1, 1);
    assert |notifications.rows| == 0;
    ListingOfNone();
    after := notifications.GetUserNotifications(1, page.value);
  }

  /**
    The whole walk: registration issues bearer tokens whose access token
    names alice, so her listing shows her one notification and, once it is
    deleted, none; registering her name again is refused.
  */
  method AliceWalkthrough(hasher: PasswordHasher, codec: TokenCodec, now: int)
    returns (registered: Result<OAuth2TokenResponse>, again: Result<OAuth2TokenResponse>,
             before: NotificationReadPagination, after: NotificationReadPagination)
    requires HasherSound(hasher) && CodecSound(codec)
    ensures registered.Ok? && registered.value.tokenType == BearerTokenType
    ensures CurrentUserId(codec, registered.value.accessToken, now) == Ok(1)
    ensures again == Err(HttpError(BadRequest, FailureText(UsernameTaken)))
    ensures before == NotificationReadPagination(1, 1, 1, 1, [NotificationRead(1, "like", "hi", now, 1)])
    ensures after == NotificationReadPagination(0, 0, 1, 0, [])
  {
    var users := new UserStore();
    var notifications := new NotificationRepository();
    registered := RegisterAlice(users, hasher, codec, now);
    again := RegisterAliceAgain(users, hasher, codec, "secret2", now);

    // The access token names alice's id.
    IssuedAccessTokenAuthenticates(codec, DefaultTokens, 1, now, now);
    var userId := CurrentUserId(codec, registered.value.accessToken, now);
    assert userId == Ok(1);

    before, after := CreateListDelete(users, notifications, now);
  }
}
