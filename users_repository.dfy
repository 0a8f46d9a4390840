/**
  The users table and the repository over it: lookup by id, lookup by
  username, and insertion. The table's own constraints (unique username,
  column lengths) are the store's invariant.
*/
module UsersRepository {
  import opened Errors

  /** Column widths of the `user` table. */
  const UsernameMaxLength: nat := 50
  const PasswordMaxLength: nat := 128
  const DefaultAvatarUrl: string := "https://example.com/avatar.png"

  /** A row of the `user` table; `password` holds the hash. */
  datatype User = User(id: int, username: string, password: string, avatarUrl: string, createdAt: int)

  /** Why the ORM refuses an insert: a column value that is too long, or a username already taken. */
  datatype CreateFailure = TooLong(field: string) | UsernameTaken

  /** The text carried by the 400; it stands for the ORM's message for each failure. */
  function FailureText(f: CreateFailure): string {
    match f
    case TooLong(field) => field + ": value exceeds the column's max_length"
    case UsernameTaken => "duplicate key value violates unique constraint on username"
  }

  /** The first row with that username, if any. */
  function FindByUsername(rows: seq<User>, username: string): (r: Option<User>)
    ensures r.None? <==> forall i :: 0 <= i < |rows| ==> rows[i].username != username
    ensures r.Some? ==> r.value in rows && r.value.username == username
  {
    if |rows| == 0 then None
    else if rows[0].username == username then Some(rows[0])
    else FindByUsername(rows[1..], username)
  }

  /** The first row with that id, if any. */
  function FindById(rows: seq<User>, id: int): (r: Option<User>)
    ensures r.None? <==> forall i :: 0 <= i < |rows| ==> rows[i].id != id
    ensures r.Some? ==> r.value in rows && r.value.id == id
  {
    if |rows| == 0 then None
    else if rows[0].id == id then Some(rows[0])
    else FindById(rows[1..], id)
  }

  /**
    What the ORM checks before an insert succeeds, in its order: the column
    lengths (username before password), then the unique constraint.
  */
  function CreateFailureOf(rows: seq<User>, username: string, hashedPassword: string): (r: Option<CreateFailure>)
    ensures r.None? <==>
      |username| <= UsernameMaxLength && |hashedPassword| <= PasswordMaxLength &&
      forall i :: 0 <= i < |rows| ==> rows[i].username != username
  {
    if |username| > UsernameMaxLength then Some(TooLong("username"))
    else if |hashedPassword| > PasswordMaxLength then Some(TooLong("password"))
    else if FindByUsername(rows, username).Some? then Some(UsernameTaken)
    else None
  }

  class UserStore {
    var rows: seq<User>
    var nextId: int

    /** Primary key and unique username, column widths, ids below the next one to assign. */
    ghost predicate Valid()
      reads this
    {
      nextId >= 1 &&
      (forall i :: 0 <= i < |rows| ==>
        1 <= rows[i].id < nextId &&
        |rows[i].username| <= UsernameMaxLength &&
        |rows[i].password| <= PasswordMaxLength) &&
      (forall i, j :: 0 <= i < j < |rows| ==>
        rows[i].id != rows[j].id && rows[i].username != rows[j].username)
    }

    constructor ()
      ensures Valid() && rows == [] && nextId == 1
    {
      rows := [];
      nextId := 1;
    }

    function Ids(): (s: set<int>)
      reads this
      ensures forall i :: 0 <= i < |rows| ==> rows[i].id in s
      ensures forall id :: id in s ==> exists i :: 0 <= i < |rows| && rows[i].id == id
    {
      set i | 0 <= i < |rows| :: rows[i].id
    }

    /** `get_by_id`: the user with that id, or 404 "User not found". */
    function GetById(userId: int): (r: Result<User>)
      reads this
      ensures r.Ok? <==> userId in Ids()
      ensures r.Ok? ==> r.value in rows && r.value.id == userId
      ensures r.Err? ==> r.error == HttpError(NotFound, "User not found")
    {
      match FindById(rows, userId)
      case Some(u) => Ok(u)
      case None => Err(HttpError(NotFound, "User not found"))
    }

    /** `get_by_username`: the user, or `None` when absent; absence is not an error. */
    function GetByUsername(username: string): (r: Option<User>)
      reads this
      ensures r.Some? <==> exists i :: 0 <= i < |rows| && rows[i].username == username
      ensures r.Some? ==> r.value in rows && r.value.username == username
    {
      FindByUsername(rows, username)
    }

    /** In a valid store a username names at most one user, so the lookup is exact. */
    lemma UsernameDeterminesUser(username: string, k: nat)
      requires Valid() && k < |rows| && rows[k].username == username
      ensures GetByUsername(username) == Some(rows[k])
    {
      var u := GetByUsername(username).value;
      var i :| 0 <= i < |rows| && rows[i] == u;
      if i < k {
        assert rows[i].username != rows[k].username;
      } else if k < i {
        assert rows[k].username != rows[i].username;
      }
    }

    /**
      `create_user`: inserts one row with the given username and hashed
      password; any refusal becomes a 400 carrying the error text and
      leaves the table as it was. The column lengths are checked by the ORM
      before the INSERT, but a taken username is refused by the database
      after the INSERT has drawn an id from the serial sequence, which does
      not roll back: that id is never assigned.
    */
    method CreateUser(username: string, hashedPassword: string, now: int) returns (r: Result<User>)
      requires Valid()
      modifies this
      ensures Valid()
      ensures r.Ok? <==> CreateFailureOf(old(rows), username, hashedPassword).None?
      ensures r.Ok? ==>
        r.value == User(old(nextId), username, hashedPassword, DefaultAvatarUrl, now) &&
        rows == old(rows) + [r.value] && nextId == old(nextId) + 1
      ensures r.Err? ==>
        r.error == HttpError(BadRequest, FailureText(CreateFailureOf(old(rows), username, hashedPassword).value)) &&
        rows == old(rows) &&
        nextId == old(nextId) + (if CreateFailureOf(old(rows), username, hashedPassword) == Some(UsernameTaken) then 1 else 0)
    {
      var failure := CreateFailureOf(rows, username, hashedPassword);
      if failure.Some? {
        if failure.value == UsernameTaken {
          nextId := nextId + 1;
        }
        return Err(HttpError(BadRequest, FailureText(failure.value)));
      }
      var user := User(nextId, username, hashedPassword, DefaultAvatarUrl, now);
      rows := rows + [user];
      nextId := nextId + 1;
      r := Ok(user);
    }
  }
}
