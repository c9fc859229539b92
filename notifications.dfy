/** The notification inbox routes: list, mark-read, mark-all-read, unread count and
    delete, each scoped to the calling user. The notifications table is a sequence
    of rows in insertion order; the SQL statements the routes issue are stated row
    by row by the functions below, and class Inbox performs them in place. */
module Notifications {
  import opened Shared

  type NotificationId = nat

  /** A row of the notifications table. */
  datatype Notification = Notification(id: NotificationId, user: UserId, kind: string,
                                       message: string, isRead: bool)

  /** The two answers of an ownership-checked route: done, or 404 "Notification not found". */
  datatype Outcome = Done | NotFound

  // ---------------------------------------------------------------- row functions

  /** The caller's rows, in table order. */
  function OwnedBy(rows: seq<Notification>, u: UserId): (r: seq<Notification>)
    ensures |r| <= |rows|
    ensures forall n :: n in r <==> n in rows && n.user == u
  {
    if rows == [] then []
    else (if rows[0].user == u then [rows[0]] else []) + OwnedBy(rows[1..], u)
  }

  /** `SELECT COUNT(*) FROM notifications WHERE userId = ? AND isRead = FALSE` */
  function UnreadCount(rows: seq<Notification>, u: UserId): (r: nat)
    ensures r <= |OwnedBy(rows, u)|
  {
    if rows == [] then 0
    else (if rows[0].user == u && !rows[0].isRead then 1 else 0) + UnreadCount(rows[1..], u)
  }

  /** The unread count is zero exactly when every one of the caller's rows is read. */
  lemma {:induction false} UnreadZeroIff(rows: seq<Notification>, u: UserId)
    ensures UnreadCount(rows, u) == 0 <==> forall i :: 0 <= i < |rows| && rows[i].user == u ==> rows[i].isRead
  {
    if rows != [] {
      UnreadZeroIff(rows[1..], u);
      assert forall i :: 1 <= i < |rows| ==> rows[i] == rows[1..][i - 1];
    }
  }

  /** `const { limit = 50 } = req.query` */
  const DefaultLimit: int := 50

  function LimitOrDefault(limit: Option<int>): int
  {
    if limit.None? then DefaultLimit else limit.value
  }

  /** `database.getUserNotifications(u, limit)`: the caller's rows, newest first, cut
      to `limit` (SQLite reads a negative LIMIT as no limit). */
  function ListFor(rows: seq<Notification>, u: UserId, limit: int): (r: seq<Notification>)
    ensures forall n :: n in r ==> n in rows && n.user == u
    ensures limit >= 0 ==> |r| <= limit
    ensures |r| == if 0 <= limit < |OwnedBy(rows, u)| then limit else |OwnedBy(rows, u)|
    ensures forall i :: 0 <= i < |r| ==> r[i] == OwnedBy(rows, u)[|OwnedBy(rows, u)| - 1 - i]
  {
    var newest := Reverse(OwnedBy(rows, u));
    if 0 <= limit < |newest| then newest[..limit] else newest
  }

  /** The ownership check `SELECT * FROM notifications WHERE id = ? AND userId = ?`. */
  predicate Owns(rows: seq<Notification>, id: NotificationId, u: UserId)
  {
    exists i :: 0 <= i < |rows| && rows[i].id == id && rows[i].user == u
  }

  /** `database.markNotificationAsRead(id)`: every row with that id becomes read. */
  function SetRead(rows: seq<Notification>, id: NotificationId): (r: seq<Notification>)
    ensures |r| == |rows|
    ensures forall i :: 0 <= i < |rows| ==>
              r[i] == if rows[i].id == id then rows[i].(isRead := true) else rows[i]
  {
    if rows == [] then []
    else [if rows[0].id == id then rows[0].(isRead := true) else rows[0]] + SetRead(rows[1..], id)
  }

  /** `database.markAllNotificationsAsRead(u)`: every row of u becomes read. */
  function MarkAllOf(rows: seq<Notification>, u: UserId): (r: seq<Notification>)
    ensures |r| == |rows|
    ensures forall i :: 0 <= i < |rows| ==>
              r[i] == if rows[i].user == u then rows[i].(isRead := true) else rows[i]
  {
    if rows == [] then []
    else [if rows[0].user == u then rows[0].(isRead := true) else rows[0]] + MarkAllOf(rows[1..], u)
  }

  /** `DELETE FROM notifications WHERE id = ? AND userId = ?`, keeping the order of the rest. */
  function Remove(rows: seq<Notification>, id: NotificationId, u: UserId): (r: seq<Notification>)
    ensures |r| <= |rows|
    ensures forall n :: n in r <==> n in rows && !(n.id == id && n.user == u)
  {
    if rows == [] then []
    else (if rows[0].id == id && rows[0].user == u then [] else [rows[0]]) + Remove(rows[1..], id, u)
  }

  // ---------------------------------------------------------------- what the routes promise

  /** Row ids are distinct (the table's primary key). */
  ghost predicate UniqueIds(rows: seq<Notification>)
  {
    forall i, j :: 0 <= i < j < |rows| ==> rows[i].id != rows[j].id
  }

  /** With distinct ids, marking row k read changes row k only. */
  lemma MarkReadOnlyThat(rows: seq<Notification>, k: nat)
    requires UniqueIds(rows) && k < |rows|
    ensures var r := SetRead(rows, rows[k].id);
      && r[k] == rows[k].(isRead := true)
      && forall i :: 0 <= i < |rows| && i != k ==> r[i] == rows[i]
  {
    var r := SetRead(rows, rows[k].id);
    forall i | 0 <= i < |rows| && i != k
      ensures r[i] == rows[i]
    {
      if i < k {
        assert rows[i].id != rows[k].id;
      } else {
        assert rows[k].id != rows[i].id;
      }
    }
  }

  /** With distinct ids, marking row k read lowers u's unread count by one exactly when
      row k was u's and unread, and leaves it alone otherwise. */
  lemma {:induction false} MarkReadCount(rows: seq<Notification>, k: nat, u: UserId)
    requires UniqueIds(rows) && k < |rows|
    ensures UnreadCount(SetRead(rows, rows[k].id), u)
            == UnreadCount(rows, u) - (if rows[k].user == u && !rows[k].isRead then 1 else 0)
  {
    var id := rows[k].id;
    var r := SetRead(rows, id);
    assert r[1..] == SetRead(rows[1..], id);
    if k == 0 {
      forall i | 0 <= i < |rows| - 1
        ensures rows[1..][i].id != id
      {
        assert rows[0].id != rows[i + 1].id;
      }
      SetReadAbsent(rows[1..], id);
    } else {
      assert rows[1..][k - 1] == rows[k];
      assert rows[0].id != id;
      MarkReadCount(rows[1..], k - 1, u);
    }
  }

  /** Marking an id that no row carries changes nothing. */
  lemma SetReadAbsent(rows: seq<Notification>, id: NotificationId)
    requires forall i :: 0 <= i < |rows| ==> rows[i].id != id
    ensures SetRead(rows, id) == rows
  {
  }

  /** After mark-all-read the caller has no unread row. */
  lemma {:induction false} MarkAllClearsCaller(rows: seq<Notification>, u: UserId)
    ensures UnreadCount(MarkAllOf(rows, u), u) == 0
  {
    if rows != [] {
      assert MarkAllOf(rows, u)[1..] == MarkAllOf(rows[1..], u);
      MarkAllClearsCaller(rows[1..], u);
    }
  }

  /** Mark-all-read leaves every other user's unread count as it was. */
  lemma {:induction false} MarkAllKeepsOthers(rows: seq<Notification>, u: UserId, v: UserId)
    requires v != u
    ensures UnreadCount(MarkAllOf(rows, u), v) == UnreadCount(rows, v)
  {
    if rows != [] {
      assert MarkAllOf(rows, u)[1..] == MarkAllOf(rows[1..], u);
      MarkAllKeepsOthers(rows[1..], u, v);
    }
  }

  /** With distinct ids, deleting an owned notification removes exactly one row. */
  lemma {:induction false} RemoveOwnedShrinksByOne(rows: seq<Notification>, id: NotificationId, u: UserId)
    requires UniqueIds(rows) && Owns(rows, id, u)
    ensures |Remove(rows, id, u)| == |rows| - 1
  {
    var k :| 0 <= k < |rows| && rows[k].id == id && rows[k].user == u;
    if k == 0 {
      forall i | 0 <= i < |rows| - 1
        ensures rows[1..][i].id != id
      {
        assert rows[0].id != rows[i + 1].id;
      }
      RemoveAbsent(rows[1..], id, u);
    } else {
      assert rows[1..][k - 1] == rows[k];
      assert rows[0].id != id;
      RemoveOwnedShrinksByOne(rows[1..], id, u);
    }
  }

  /** Deleting an id that no row carries changes nothing. */
  lemma RemoveAbsent(rows: seq<Notification>, id: NotificationId, u: UserId)
    requires forall i :: 0 <= i < |rows| ==> rows[i].id != id
    ensures Remove(rows, id, u) == rows
  {
  }

  /** Deleting u's row leaves every other user's rows, in order. */
  lemma {:induction false} RemoveKeepsOthers(rows: seq<Notification>, id: NotificationId, u: UserId, v: UserId)
    requires v != u
    ensures OwnedBy(Remove(rows, id, u), v) == OwnedBy(rows, v)
  {
    if rows != [] {
      RemoveKeepsOthers(rows[1..], id, u, v);
      var head := if rows[0].id == id && rows[0].user == u then [] else [rows[0]];
      OwnedByConcat(head, Remove(rows[1..], id, u), v);
    }
  }

  lemma {:induction false} OwnedByConcat(a: seq<Notification>, b: seq<Notification>, u: UserId)
    ensures OwnedBy(a + b, u) == OwnedBy(a, u) + OwnedBy(b, u)
  {
    if a != [] {
      assert (a + b)[1..] == a[1..] + b;
      OwnedByConcat(a[1..], b, u);
    } else {
      assert a + b == b;
    }
  }

  /** A notification added for u raises u's unread count by one and no one else's. */
  lemma {:induction false} AddRaisesUnread(rows: seq<Notification>, n: Notification, u: UserId)
    ensures UnreadCount(rows + [n], u) == UnreadCount(rows, u) + (if n.user == u && !n.isRead then 1 else 0)
  {
    if rows != [] {
      assert (rows + [n])[1..] == rows[1..] + [n];
      AddRaisesUnread(rows[1..], n, u);
    }
  }

  /** The caller's rows keep the table's id order. */
  lemma {:induction false} OwnedByOrdered(rows: seq<Notification>, u: UserId, bound: nat)
    requires Ordered(rows, bound)
    ensures Ordered(OwnedBy(rows, u), bound)
  {
    if rows != [] {
      var rest := rows[1..];
      assert Ordered(rest, bound) by {
        assert forall i :: 0 <= i < |rest| ==> rest[i] == rows[i + 1];
      }
      OwnedByOrdered(rest, u, bound);
      var tail := OwnedBy(rest, u);
      if rows[0].user == u {
        forall n | n in tail
          ensures rows[0].id < n.id
        {
          var k :| 0 <= k < |rest| && rest[k] == n;
          assert rows[k + 1] == n;
        }
        ConsOrdered(rows[0], tail, bound);
      }
    }
  }

  /** On an ordered table the listing is newest first: ids strictly decrease. */
  lemma ListNewestFirst(rows: seq<Notification>, u: UserId, limit: int, bound: nat)
    requires Ordered(rows, bound)
    ensures var r := ListFor(rows, u, limit);
      forall i, j :: 0 <= i < j < |r| ==> r[i].id > r[j].id
  {
    OwnedByOrdered(rows, u, bound);
  }

  // ---------------------------------------------------------------- the inbox

  /** The notifications table and the five routes over it. */
  class Inbox {
    var rows: seq<Notification>
    var nextId: NotificationId

    /** Ids increase in insertion order and stay below the next id to hand out. */
    ghost predicate Valid()
      reads this
    {
      Ordered(rows, nextId)
    }

    constructor ()
      ensures Valid()
      ensures rows == [] && nextId == 0
    {
      rows, nextId := [], 0;
    }

    /** The notification service's insert: a new unread row for u. */
    method Add(u: UserId, kind: string, message: string) returns (id: NotificationId)
      requires Valid()
      modifies this
      ensures Valid()
      ensures id == old(nextId) && nextId == old(nextId) + 1
      ensures rows == old(rows) + [Notification(id, u, kind, message, false)]
    {
      id := nextId;
      rows := rows + [Notification(id, u, kind, message, false)];
      nextId := nextId + 1;
    }

    /** GET / (routes/notifications.js:31-48). */
    method List(u: UserId, limit: Option<int>) returns (r: seq<Notification>)
      ensures r == ListFor(rows, u, LimitOrDefault(limit))
      ensures forall n :: n in r ==> n in rows && n.user == u
      ensures limit.None? ==> |r| == if |OwnedBy(rows, u)| < DefaultLimit then |OwnedBy(rows, u)| else DefaultLimit
      ensures limit.Some? && limit.value >= 0 ==> |r| <= limit.value
      ensures limit.Some? && limit.value < 0 ==> |r| == |OwnedBy(rows, u)|
    {
      r := ListFor(rows, u, LimitOrDefault(limit));
    }

    /** PUT /:id/read (routes/notifications.js:51-82). */
    method MarkRead(u: UserId, id: NotificationId) returns (o: Outcome)
      requires Valid()
      modifies this
      ensures Valid()
      ensures o == if Owns(old(rows), id, u) then Done else NotFound
      ensures rows == if o == Done then SetRead(old(rows), id) else old(rows)
      ensures nextId == old(nextId)
    {
      if !Owns(rows, id, u) {
        return NotFound;
      }
      rows := SetRead(rows, id);
      o := Done;
    }

    /** PUT /mark-all-read (routes/notifications.js:85-101). */
    method MarkAllRead(u: UserId)
      requires Valid()
      modifies this
      ensures Valid()
      ensures rows == MarkAllOf(old(rows), u) && nextId == old(nextId)
    {
      rows := MarkAllOf(rows, u);
    }

    /** GET /unread-count (routes/notifications.js:104-125). */
    method Unread(u: UserId) returns (count: nat)
      ensures count == UnreadCount(rows, u)
    {
      count := UnreadCount(rows, u);
    }

    /** DELETE /:id (routes/notifications.js:128-162). */
    method Delete(u: UserId, id: NotificationId) returns (o: Outcome)
      requires Valid()
      modifies this
      ensures Valid()
      ensures o == if Owns(old(rows), id, u) then Done else NotFound
      ensures rows == if o == Done then Remove(old(rows), id, u) else old(rows)
      ensures nextId == old(nextId)
    {
      if !Owns(rows, id, u) {
        return NotFound;
      }
      RemoveKeepsOrder(rows, id, u, nextId);
      rows := Remove(rows, id, u);
      o := Done;
    }
  }

  /** Ids increase in table order and stay below bound. */
  ghost predicate Ordered(rows: seq<Notification>, bound: nat)
  {
    && (forall i :: 0 <= i < |rows| ==> rows[i].id < bound)
    && (forall i, j :: 0 <= i < j < |rows| ==> rows[i].id < rows[j].id)
  }

  /** A row in front of an ordered tail whose ids all exceed its own keeps the order. */
  lemma ConsOrdered(x: Notification, tail: seq<Notification>, bound: nat)
    requires x.id < bound && Ordered(tail, bound)
    requires forall n :: n in tail ==> x.id < n.id
    ensures Ordered([x] + tail, bound)
  {
    var r := [x] + tail;
    forall i, j | 0 <= i < j < |r|
      ensures r[i].id < r[j].id
    {
      assert r[j] == tail[j - 1];
      if i > 0 {
        assert r[i] == tail[i - 1];
      }
    }
  }

  /** Deleting rows keeps ids increasing and below the bound. */
  lemma {:induction false} RemoveKeepsOrder(rows: seq<Notification>, id: NotificationId, u: UserId, bound: nat)
    requires Ordered(rows, bound)
    ensures Ordered(Remove(rows, id, u), bound)
  {
    if rows != [] {
      var rest := rows[1..];
      assert Ordered(rest, bound) by {
        assert forall i :: 0 <= i < |rest| ==> rest[i] == rows[i + 1];
      }
      RemoveKeepsOrder(rest, id, u, bound);
      var tail := Remove(rest, id, u);
      if !(rows[0].id == id && rows[0].user == u) {
        forall n | n in tail
          ensures rows[0].id < n.id
        {
          var k :| 0 <= k < |rest| && rest[k] == n;
          assert rows[k + 1] == n;
        }
        ConsOrdered(rows[0], tail, bound);
      }
    }
  }
}
