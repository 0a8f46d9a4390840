/**
  The notification table and the repository over it: create for an existing
  user, the owner-scoped paginated listing, and owner-checked deletion.

  The listing is one SQL query: filter by owner, order by id, then OFFSET and
  LIMIT, whatever order the query-set calls are chained in.
*/
module NotificationsRepository {
  import opened Errors
  import opened Pagination
  import opened NotificationSchema
  import UsersRepository

  /** A row of the `notification` table. */
  datatype Notification = Notification(id: int, userId: int, kind: NotificationType, text: string, createdAt: int)

  /** `NotificationRead.from_orm`. */
  function ReadView(n: Notification): (v: NotificationRead)
    ensures v.id == n.id && v.userId == n.userId && v.text == n.text && v.createdAt == n.createdAt
    ensures ParseType(v.kind) == Some(n.kind)
  {
    NotificationRead(n.id, TypeValue(n.kind), n.text, n.createdAt, n.userId)
  }

  /** The primary key: no two rows share an id. */
  ghost predicate DistinctIds(s: seq<Notification>) {
    forall i, j :: 0 <= i < j < |s| ==> s[i].id != s[j].id
  }

  predicate Before(a: Notification, b: Notification, order: Order) {
    if order == Desc then a.id > b.id else a.id < b.id
  }

  /** Ordered by id, ascending or descending, with no ties. */
  ghost predicate Sorted(s: seq<Notification>, order: Order) {
    forall i, j :: 0 <= i < j < |s| ==> Before(s[i], s[j], order)
  }

  /** `Notification.filter(user_id=...)`: the rows of that owner, in table order. */
  function Owned(rows: seq<Notification>, userId: int): (r: seq<Notification>)
    ensures forall i :: 0 <= i < |r| ==> r[i].userId == userId && r[i] in rows
  {
    if |rows| == 0 then []
    else if rows[0].userId == userId then [rows[0]] + Owned(rows[1..], userId)
    else Owned(rows[1..], userId)
  }

  /** The filter keeps each of the owner's rows exactly as often as the table holds it, and no other row. */
  lemma {:induction false} OwnedCounts(rows: seq<Notification>, userId: int, n: Notification)
    ensures multiset(Owned(rows, userId))[n] == if n.userId == userId then multiset(rows)[n] else 0
  {
    if |rows| > 0 {
      assert rows == [rows[0]] + rows[1..];
      OwnedCounts(rows[1..], userId, n);
    }
  }

  /** Filtering a table with a primary key yields rows with distinct ids. */
  lemma {:induction false} OwnedDistinct(rows: seq<Notification>, userId: int)
    requires DistinctIds(rows)
    ensures DistinctIds(Owned(rows, userId))
  {
    if |rows| > 0 {
      TailDistinct(rows);
      OwnedDistinct(rows[1..], userId);
      if rows[0].userId == userId {
        var rest := Owned(rows[1..], userId);
        forall i | 0 <= i < |rest| ensures rest[i].id != rows[0].id {
          var k :| 0 <= k < |rows[1..]| && rows[1..][k] == rest[i];
          assert rows[k + 1] == rest[i];
        }
      }
    }
  }

  lemma {:induction false} OwnedOfOthersIsEmpty(rows: seq<Notification>, userId: int)
    requires forall i :: 0 <= i < |rows| ==> rows[i].userId != userId
    ensures Owned(rows, userId) == []
  {
    if |rows| > 0 {
      OwnedOfOthersIsEmpty(rows[1..], userId);
    }
  }

  /** Owner filtering distributes over a split of the table. */
  lemma {:induction false} OwnedAppend(a: seq<Notification>, b: seq<Notification>, userId: int)
    ensures Owned(a + b, userId) == Owned(a, userId) + Owned(b, userId)
  {
    if |a| > 0 {
      assert (a + b)[1..] == a[1..] + b;
      OwnedAppend(a[1..], b, userId);
    } else {
      assert a + b == b;
    }
  }

  /** Inserting one row into an id-ordered sequence keeps it ordered. */
  function Insert(x: Notification, s: seq<Notification>, order: Order): (r: seq<Notification>)
    requires Sorted(s, order)
    requires forall i :: 0 <= i < |s| ==> s[i].id != x.id
    ensures Sorted(r, order)
    ensures multiset(r) == multiset(s) + multiset{x}
    ensures |r| == |s| + 1
    ensures forall i :: 0 <= i < |r| ==> r[i] == x || r[i] in s
  {
    if |s| == 0 then [x]
    else if Before(x, s[0], order) then
      HeadBeforeAll(x, s, order);
      ConsSorted(x, s, order);
      [x] + s
    else
      var rest := Insert(x, s[1..], order);
      HeadPrecedesInsertion(s, x, rest, order);
      ConsSorted(s[0], rest, order);
      HeadAndTail(s);
      [s[0]] + rest
  }

  /** A row placed before the first row of an ordered sequence is placed before all of them. */
  lemma HeadBeforeAll(x: Notification, s: seq<Notification>, order: Order)
    requires |s| > 0 && Sorted(s, order) && Before(x, s[0], order)
    ensures forall i :: 0 <= i < |s| ==> Before(x, s[i], order)
  {
  }

  /** Every row of the insertion into the tail follows the head: it is the new row or a tail row. */
  lemma HeadPrecedesInsertion(s: seq<Notification>, x: Notification, rest: seq<Notification>, order: Order)
    requires |s| > 0 && Sorted(s, order)
    requires s[0].id != x.id && !Before(x, s[0], order)
    requires forall i :: 0 <= i < |rest| ==> rest[i] == x || rest[i] in s[1..]
    ensures forall i :: 0 <= i < |rest| ==> Before(s[0], rest[i], order)
  {
    forall i | 0 <= i < |rest| ensures Before(s[0], rest[i], order) {
      if rest[i] != x {
        var k :| 0 <= k < |s[1..]| && s[1..][k] == rest[i];
        assert s[k + 1] == rest[i];
      }
    }
  }

  /** An ordered sequence with a row in front that precedes all of it is ordered. */
  lemma ConsSorted(h: Notification, rest: seq<Notification>, order: Order)
    requires Sorted(rest, order)
    requires forall i :: 0 <= i < |rest| ==> Before(h, rest[i], order)
    ensures Sorted([h] + rest, order)
  {
    var r := [h] + rest;
    forall i, j | 0 <= i < j < |r| ensures Before(r[i], r[j], order) {
      assert r[j] == rest[j - 1];
      if i > 0 { assert r[i] == rest[i - 1]; }
    }
  }

  lemma HeadAndTail(s: seq<Notification>)
    requires |s| > 0
    ensures multiset(s) == multiset{s[0]} + multiset(s[1..])
    ensures forall e :: e in s[1..] ==> e in s
  {
    assert s == [s[0]] + s[1..];
  }

  /** `order_by("id")` / `order_by("-id")`, as an insertion sort. */
  function SortById(s: seq<Notification>, order: Order): (r: seq<Notification>)
    requires DistinctIds(s)
    ensures Sorted(r, order)
    ensures multiset(r) == multiset(s)
    ensures |r| == |s|
  {
    if |s| == 0 then []
    else
      TailDistinct(s);
      var rest := SortById(s[1..], order);
      HeadIdNotInTail(s, rest);
      Insert(s[0], rest, order)
  }

  lemma TailDistinct(s: seq<Notification>)
    requires |s| > 0 && DistinctIds(s)
    ensures DistinctIds(s[1..])
  {
    forall i, j | 0 <= i < j < |s[1..]| ensures s[1..][i].id != s[1..][j].id {
      assert s[1..][i] == s[i + 1] && s[1..][j] == s[j + 1];
    }
  }

  /** A permutation of the tail holds no row with the head's id. */
  lemma HeadIdNotInTail(s: seq<Notification>, rest: seq<Notification>)
    requires |s| > 0 && DistinctIds(s)
    requires multiset(rest) == multiset(s[1..])
    ensures forall i :: 0 <= i < |rest| ==> rest[i].id != s[0].id
    ensures multiset(s) == multiset{s[0]} + multiset(rest)
  {
    assert s == [s[0]] + s[1..];
    forall i | 0 <= i < |rest| ensures rest[i].id != s[0].id {
      assert rest[i] in multiset(s[1..]);
      var k :| 0 <= k < |s[1..]| && s[1..][k] == rest[i];
      assert s[k + 1] == rest[i];
    }
  }

  /** OFFSET `offset` then LIMIT `limit`: past the end gives nothing. */
  function Window<T>(s: seq<T>, offset: nat, limit: nat): (r: seq<T>)
    ensures |r| == Min(limit, Max(0, |s| - offset))
    ensures forall i :: 0 <= i < |r| ==> r[i] == s[offset + i]
  {
    if offset >= |s| then []
    else if limit >= |s| - offset then s[offset..]
    else s[offset..offset + limit]
  }

  /** `ceil(total / per_page)` computed exactly. */
  function CeilDiv(total: nat, perPage: int): (q: nat)
    requires perPage >= 1
    ensures total == 0 ==> q == 0
    ensures total > 0 ==> (q - 1) * perPage < total <= q * perPage
  {
    var q := (total + perPage - 1) / perPage;
    var m := (total + perPage - 1) % perPage;
    assert total + perPage - 1 == q * perPage + m && 0 <= m < perPage;
    assert (q - 1) * perPage == q * perPage - perPage;
    assert total == 0 ==> q == 0 by {
      if total == 0 && q >= 1 {
        MulPositive(q, perPage);
      }
    }
    q
  }

  /**
    `get_user_notifications` over the table `rows`: the owner's rows, ordered
    by id (descending iff `order` is `desc`), the first `offset or 0` skipped
    and at most `per_page` kept, with the envelope's totals.
  */
  function ListPage(rows: seq<Notification>, userId: int, p: Pagination): (r: NotificationReadPagination)
    requires DistinctIds(rows)
    requires p.page >= 1 && p.perPage >= 1
    ensures r.total == |Owned(rows, userId)|
    ensures r.count == Min(p.perPage, r.total)
    ensures r.page == p.page
    ensures r.total == 0 ==> r.pages == 0 && r.items == []
    ensures r.total > 0 ==> (r.pages - 1) * p.perPage < r.total <= r.pages * p.perPage
    ensures |r.items| == Min(p.perPage, Max(0, r.total - OffsetOrZero(p)))
    ensures var sorted := OwnerSorted(rows, userId, p.order);
      forall i :: 0 <= i < |r.items| ==>
        OffsetOrZero(p) + i < |sorted| && r.items[i] == ReadView(sorted[OffsetOrZero(p) + i])
    ensures forall i :: 0 <= i < |r.items| ==> r.items[i].userId == userId
    ensures forall i, j :: 0 <= i < j < |r.items| ==>
      if p.order == Desc then r.items[i].id > r.items[j].id else r.items[i].id < r.items[j].id
  {
    var total := |Owned(rows, userId)|;
    var pages := CeilDiv(total, p.perPage);
    assert total > 0 ==> (pages - 1) * p.perPage < total <= pages * p.perPage;
    var items := PageItems(rows, userId, p.order, OffsetOrZero(p), p.perPage);
    NotificationReadPagination(total, Min(p.perPage, total), p.page, pages, items)
  }

  /** The owner's rows ordered by id: the filter, then `order_by`. */
  function OwnerSorted(rows: seq<Notification>, userId: int, order: Order): (r: seq<Notification>)
    requires DistinctIds(rows)
    ensures Sorted(r, order)
    ensures multiset(r) == multiset(Owned(rows, userId))
    ensures |r| == |Owned(rows, userId)|
    ensures forall i :: 0 <= i < |r| ==> r[i].userId == userId
  {
    OwnedDistinct(rows, userId);
    var owned := Owned(rows, userId);
    var r := SortById(owned, order);
    forall i | 0 <= i < |r| ensures r[i].userId == userId {
      assert r[i] in multiset(owned);
    }
    r
  }

  /** The items of a page: the owner's rows in id order, windowed by an offset and a limit. */
  function PageItems(rows: seq<Notification>, userId: int, order: Order, offset: nat, limit: nat): (items: seq<NotificationRead>)
    requires DistinctIds(rows)
    ensures var sorted := OwnerSorted(rows, userId, order);
      |items| == Min(limit, Max(0, |sorted| - offset)) &&
      forall i :: 0 <= i < |items| ==> offset + i < |sorted| && items[i] == ReadView(sorted[offset + i])
    ensures forall i :: 0 <= i < |items| ==> items[i].userId == userId
    ensures forall i, j :: 0 <= i < j < |items| ==>
      if order == Desc then items[i].id > items[j].id else items[i].id < items[j].id
  {
    var sorted := OwnerSorted(rows, userId, order);
    var page := Window(sorted, offset, limit);
    var views := ReadViews(page);
    PageOfOwnerSorted(sorted, page, views, offset, limit, userId, order);
    views
  }

  /** The read view of each row of a page, in order. */
  function ReadViews(s: seq<Notification>): (r: seq<NotificationRead>)
    ensures |r| == |s|
    ensures forall i :: 0 <= i < |s| ==> r[i] == ReadView(s[i])
  {
    seq(|s|, i requires 0 <= i < |s| => ReadView(s[i]))
  }

  /**
    A window of the sorted owner rows, read out: each item is the row at its
    place past the offset, of that owner, and still strictly ordered.
  */
  lemma PageOfOwnerSorted(sorted: seq<Notification>, page: seq<Notification>, views: seq<NotificationRead>,
                          offset: nat, limit: nat, userId: int, order: Order)
    requires forall i :: 0 <= i < |sorted| ==> sorted[i].userId == userId
    requires Sorted(sorted, order)
    requires page == Window(sorted, offset, limit) && views == ReadViews(page)
    ensures |views| == Min(limit, Max(0, |sorted| - offset))
    ensures forall i :: 0 <= i < |views| ==> offset + i < |sorted| && views[i] == ReadView(sorted[offset + i])
    ensures forall i :: 0 <= i < |views| ==> views[i].userId == userId
    ensures forall i, j :: 0 <= i < j < |views| ==>
      if order == Desc then views[i].id > views[j].id else views[i].id < views[j].id
  {
    forall i, j | 0 <= i < j < |views| ensures Before(page[i], page[j], order) {
      assert page[i] == sorted[offset + i] && page[j] == sorted[offset + j];
    }
  }

  /** Other owners' rows are never counted or returned: the listing sees only the caller's rows. */
  lemma OtherOwnersAreInvisible(rows: seq<Notification>, extra: seq<Notification>, userId: int, p: Pagination)
    requires DistinctIds(rows + extra) && DistinctIds(rows)
    requires p.page >= 1 && p.perPage >= 1
    requires forall i :: 0 <= i < |extra| ==> extra[i].userId != userId
    ensures ListPage(rows + extra, userId, p) == ListPage(rows, userId, p)
  {
    OwnedAppend(rows, extra, userId);
    OwnedOfOthersIsEmpty(extra, userId);
    assert Owned(rows + extra, userId) == Owned(rows, userId);
  }

  /**
    The reported `count` is `min(per_page, total)`, not the number of items:
    equal on the first page, larger on a short last page or past the end.
  */
  lemma CountOverstatesShortPages(rows: seq<Notification>, userId: int, p: Pagination)
    requires DistinctIds(rows)
    requires p.page >= 1 && p.perPage >= 1
    ensures var r := ListPage(rows, userId, p);
      r.count >= |r.items| &&
      (p.page == 1 ==> r.count == |r.items|) &&
      (p.page >= 2 ==> (r.count > |r.items| <==> r.total > 0 && r.total - OffsetOrZero(p) < p.perPage))
  {
    if p.page >= 2 {
      LaterPageOffsetIsPositiveMultiple(p);
      MulPositive(p.page - 1, p.perPage);
    }
  }

  /** The first row of `rows` with that id and owner, as its index. */
  function IndexOfOwned(rows: seq<Notification>, id: int, userId: int): (r: Option<nat>)
    ensures r.None? <==> forall i :: 0 <= i < |rows| ==> !(rows[i].id == id && rows[i].userId == userId)
    ensures r.Some? ==> r.value < |rows| && rows[r.value].id == id && rows[r.value].userId == userId
  {
    if |rows| == 0 then None
    else if rows[0].id == id && rows[0].userId == userId then Some(0)
    else
      match IndexOfOwned(rows[1..], id, userId)
      case None => None
      case Some(k) => Some(k + 1)
  }

  /** The table without its `k`-th row. */
  function Without(rows: seq<Notification>, k: nat): (r: seq<Notification>)
    requires k < |rows|
    ensures |r| == |rows| - 1
    ensures multiset(r) == multiset(rows) - multiset{rows[k]}
    ensures DistinctIds(rows) ==> DistinctIds(r) && forall i :: 0 <= i < |r| ==> r[i].id != rows[k].id
  {
    var r := rows[..k] + rows[k + 1..];
    RemovedRowShifts(rows, k, r);
    RemovalKeepsIdsDistinct(rows, k, r);
    r
  }

  /** Past the removed row, every row moves down one place. */
  lemma RemovedRowShifts(rows: seq<Notification>, k: nat, r: seq<Notification>)
    requires k < |rows| && r == rows[..k] + rows[k + 1..]
    ensures |r| == |rows| - 1
    ensures forall i :: 0 <= i < |r| ==> r[i] == rows[if i < k then i else i + 1]
    ensures multiset(r) == multiset(rows) - multiset{rows[k]}
  {
    assert rows == rows[..k] + [rows[k]] + rows[k + 1..];
  }

  lemma RemovalKeepsIdsDistinct(rows: seq<Notification>, k: nat, r: seq<Notification>)
    requires k < |rows| && |r| == |rows| - 1
    requires forall i :: 0 <= i < |r| ==> r[i] == rows[if i < k then i else i + 1]
    ensures DistinctIds(rows) ==> DistinctIds(r) && forall i :: 0 <= i < |r| ==> r[i].id != rows[k].id
  {
    if !DistinctIds(rows) { return; }
    forall i, j | 0 <= i < j < |r| ensures r[i].id != r[j].id {
      var i', j' := if i < k then i else i + 1, if j < k then j else j + 1;
      assert r[i] == rows[i'] && r[j] == rows[j'] && i' < j';
    }
    forall i | 0 <= i < |r| ensures r[i].id != rows[k].id {
      var i' := if i < k then i else i + 1;
      assert r[i] == rows[i'] && i' != k;
    }
  }

  class NotificationRepository {
    var rows: seq<Notification>
    var nextId: int

    /** Primary key, ids below the next one to assign, texts within the column width. */
    ghost predicate Valid()
      reads this
    {
      nextId >= 1 &&
      DistinctIds(rows) &&
      forall i :: 0 <= i < |rows| ==> 1 <= rows[i].id < nextId && |rows[i].text| <= TextMaxLength
    }

    constructor ()
      ensures Valid() && rows == [] && nextId == 1
    {
      rows := [];
      nextId := 1;
    }

    /**
      `create_notification_for_user`: fails with the ORM's DoesNotExist when
      no user has that id; otherwise adds exactly one row owned by `userId`
      with the payload's type and text, and nothing else changes.
    */
    method CreateNotificationForUser(users: UsersRepository.UserStore, userId: int, data: NotificationCreate, now: int)
      returns (r: Result<Notification>)
      requires Valid() && ValidCreate(data)
      modifies this
      ensures Valid()
      ensures r.Ok? <==> userId in users.Ids()
      ensures r.Ok? ==>
        r.value == Notification(old(nextId), userId, data.kind, data.text, now) &&
        rows == old(rows) + [r.value] && nextId == old(nextId) + 1
      ensures r.Err? ==> r.error == DoesNotExist("User") && rows == old(rows) && nextId == old(nextId)
    {
      var user := users.GetById(userId);
      if user.Err? {
        return Err(DoesNotExist("User"));
      }
      var n := Notification(nextId, userId, data.kind, data.text, now);
      rows := rows + [n];
      nextId := nextId + 1;
      r := Ok(n);
    }

    /** `get_user_notifications`: a read-only query over the table. */
    function GetUserNotifications(userId: int, p: Pagination): (r: NotificationReadPagination)
      reads this
      requires Valid()
      requires p.page >= 1 && p.perPage >= 1
      ensures r == ListPage(rows, userId, p)
    {
      ListPage(rows, userId, p)
    }

    /**
      `delete_user_notification`: removes the row iff one with that id is
      owned by `userId`; otherwise 404 "Notification not found" with the
      table unchanged, also when the id belongs to another user.
    */
    method DeleteUserNotification(userId: int, notificationId: int) returns (r: Result<()>)
      requires Valid()
      modifies this
      ensures Valid() && nextId == old(nextId)
      ensures r.Ok? <==> exists i :: 0 <= i < |old(rows)| && old(rows)[i].id == notificationId && old(rows)[i].userId == userId
      ensures r.Ok? ==>
        var k := IndexOfOwned(old(rows), notificationId, userId).value;
        rows == Without(old(rows), k) &&
        |rows| == |old(rows)| - 1 &&
        forall i :: 0 <= i < |rows| ==> rows[i].id != notificationId
      ensures r.Err? ==> r.error == HttpError(NotFound, "Notification not found") && rows == old(rows)
    {
      var found := IndexOfOwned(rows, notificationId, userId);
      if found.None? {
        return Err(HttpError(NotFound, "Notification not found"));
      }
      var k := found.value;
      var remaining := Without(rows, k);
      assert forall i :: 0 <= i < |remaining| ==> remaining[i] in multiset(rows);
      rows := remaining;
      r := Ok(());
    }
  }
}
