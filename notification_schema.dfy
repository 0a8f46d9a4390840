/**
  Request and response shapes of the notification endpoints: the create
  payload and its validation, the read view and the paginated envelope.
  The notification type enum is the one the ORM model declares.
*/
module NotificationSchema {
  import opened Errors

  datatype NotificationType = Like | Comment | Repost

  /** The string value of each enum member. */
  function TypeValue(t: NotificationType): string {
    match t
    case Like => "like"
    case Comment => "comment"
    case Repost => "repost"
  }

  /** Enum validation: only the three member values are accepted. */
  function ParseType(s: string): (r: Option<NotificationType>)
    ensures r.Some? <==> s == "like" || s == "comment" || s == "repost"
    ensures r.Some? ==> TypeValue(r.value) == s
  {
    if s == "like" then Some(Like)
    else if s == "comment" then Some(Comment)
    else if s == "repost" then Some(Repost)
    else None
  }

  lemma TypeRoundTrip(t: NotificationType)
    ensures ParseType(TypeValue(t)) == Some(t)
  {
  }

  /** Both the payload field and the `text` column are limited to 255 characters. */
  const TextMaxLength: nat := 255

  /** The create payload: the client supplies a type and a text, never an owner. */
  datatype NotificationCreate = NotificationCreate(kind: NotificationType, text: string)

  /** The invariant every constructed payload satisfies. */
  predicate ValidCreate(c: NotificationCreate) {
    |c.text| <= TextMaxLength
  }

  /**
    Validation of a create payload whose fields may be missing. Pydantic
    checks `type` before `text`; a missing or bad field is a 422 naming it.
  */
  function ValidateNotificationCreate(kind: Option<string>, text: Option<string>): (r: Result<NotificationCreate>)
    ensures r.Ok? <==>
      kind.Some? && ParseType(kind.value).Some? && text.Some? && |text.value| <= TextMaxLength
    ensures r.Ok? ==> TypeValue(r.value.kind) == kind.value && r.value.text == text.value && ValidCreate(r.value)
    ensures r.Err? ==> r.error.ValidationError?
  {
    if kind.None? || ParseType(kind.value).None? then Err(ValidationError("type"))
    else if text.None? || |text.value| > TextMaxLength then Err(ValidationError("text"))
    else Ok(NotificationCreate(ParseType(kind.value).value, text.value))
  }

  /** The read view: exactly id, type, text, created_at and user_id. */
  datatype NotificationRead = NotificationRead(id: int, kind: string, text: string, createdAt: int, userId: int)

  /** The paginated envelope: total, count, page, pages and the page's items. */
  datatype NotificationReadPagination =
    NotificationReadPagination(total: int, count: int, page: int, pages: int, items: seq<NotificationRead>)
}
