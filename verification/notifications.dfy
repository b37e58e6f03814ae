/**
 * The notification panel (src/components/dashboard/NotificationPanel.tsx):
 * the signed-in user's latest notifications, their read flags, the unread
 * count, and the items pushed by the realtime feed.
 */
module NotificationPanel {

  import opened Wrappers
  import opened Queries
  import opened Entities

  /** A `notifications` row; `createdAt` is its timestamp. */
  datatype Notification = Notification(
    id: string, userId: UserId, title: string, message: string, kind: string, read: bool, createdAt: int)

  function Unread(): Notification -> bool {
    (n: Notification) => !n.read
  }

  /** The read flags of the list, in its order. */
  function ReadFlags(ns: seq<Notification>): (flags: seq<bool>)
    ensures |flags| == |ns| && forall i :: 0 <= i < |ns| ==> flags[i] == ns[i].read
  {
    seq(|ns|, i requires 0 <= i < |ns| => ns[i].read)
  }

  /** `unreadCount`: the number of items whose read flag is false. */
  function UnreadCount(ns: seq<Notification>): (c: nat)
    ensures c == multiset(ReadFlags(ns))[false]
    ensures c <= |ns|
    ensures c == 0 <==> forall i :: 0 <= i < |ns| ==> ns[i].read
  {
    FilterEmpty(ns, Unread());
    UnreadAreFalseFlags(ns);
    |Filter(ns, Unread())|
  }

  lemma {:induction false} UnreadAreFalseFlags(ns: seq<Notification>)
    ensures |Filter(ns, Unread())| == multiset(ReadFlags(ns))[false]
  {
    if ns != [] {
      UnreadAreFalseFlags(ns[1..]);
      assert ReadFlags(ns) == [ns[0].read] + ReadFlags(ns[1..]);
    }
  }

  /** The badge and the mark-all button show only while something is unread. */
  function ShowsUnreadControls(ns: seq<Notification>): (b: bool)
    ensures b <==> exists i :: 0 <= i < |ns| && !ns[i].read
  {
    UnreadCount(ns) > 0
  }

  /** The ids `markAllAsRead` sends: those of the unread items, in list order. */
  function UnreadIds(ns: seq<Notification>): (ids: seq<string>)
    ensures forall x :: x in ids <==> exists n :: n in ns && !n.read && n.id == x
  {
    var unread := Filter(ns, Unread());
    var ids := seq(|unread|, i requires 0 <= i < |unread| => unread[i].id);
    assert forall n :: n in ns && !n.read ==> n.id in ids by {
      forall n | n in ns && !n.read ensures n.id in ids {
        var k :| 0 <= k < |unread| && unread[k] == n;
        assert ids[k] == n.id;
      }
    }
    ids
  }

  /** The local update after a successful `markAsRead(id)`. */
  function MarkRead(ns: seq<Notification>, id: string): (r: seq<Notification>)
    ensures |r| == |ns|
  {
    seq(|ns|, i requires 0 <= i < |ns| => if ns[i].id == id then ns[i].(read := true) else ns[i])
  }

  /** The local update after a successful `markAllAsRead`. */
  function MarkAll(ns: seq<Notification>): (r: seq<Notification>)
    ensures |r| == |ns|
  {
    seq(|ns|, i requires 0 <= i < |ns| => ns[i].(read := true))
  }

  /**
   * Marking one item read changes only the items carrying that id, and only
   * their read flag; every other item keeps its place and value.
   */
  lemma MarkReadOnlyThatItem(ns: seq<Notification>, id: string)
    ensures var r := MarkRead(ns, id);
            forall i :: 0 <= i < |ns| ==>
              r[i].read == (ns[i].read || ns[i].id == id) && r[i].(read := ns[i].read) == ns[i]
  {
  }

  /**
   * Marking one item read lowers the unread count by the number of unread
   * items with that id, and leaves it alone when there is none.
   */
  lemma MarkReadCount(ns: seq<Notification>, id: string)
    ensures UnreadCount(MarkRead(ns, id))
            == UnreadCount(ns) - |Filter(ns, (n: Notification) => !n.read && n.id == id)|
  {
    MarkReadFiltered(ns, id, (n: Notification) => !n.read && n.id == id);
  }

  lemma {:induction false} MarkReadFiltered(ns: seq<Notification>, id: string, p: Notification -> bool)
    requires forall n :: p(n) == (!n.read && n.id == id)
    ensures |Filter(MarkRead(ns, id), Unread())| == |Filter(ns, Unread())| - |Filter(ns, p)|
  {
    if ns != [] {
      MarkReadFiltered(ns[1..], id, p);
      var r := MarkRead(ns, id);
      assert r[1..] == MarkRead(ns[1..], id);
      FilterConsLength(r, Unread());
      FilterConsLength(ns, Unread());
      FilterConsLength(ns, p);
    }
  }

  /** After marking all, nothing is unread and the unread controls disappear. */
  lemma MarkAllClearsUnread(ns: seq<Notification>)
    ensures UnreadCount(MarkAll(ns)) == 0 && !ShowsUnreadControls(MarkAll(ns))
    ensures forall i :: 0 <= i < |ns| ==> MarkAll(ns)[i].(read := ns[i].read) == ns[i]
  {
    var r := MarkAll(ns);
    assert forall i :: 0 <= i < |r| ==> r[i].read;
  }

  function OfUser(userId: UserId): Notification -> bool {
    (n: Notification) => n.userId == userId
  }

  function CreatedAt(): Notification -> int {
    (n: Notification) => n.createdAt
  }

  /** `.eq('user_id', userId).order('created_at', { ascending: false }).limit(10)`. */
  function Latest(table: seq<Notification>, userId: UserId): (r: seq<Notification>)
    ensures |r| == if |Filter(table, OfUser(userId))| < 10 then |Filter(table, OfUser(userId))| else 10
    ensures forall n :: n in r ==> n in table && n.userId == userId
    ensures forall i, j :: 0 <= i < j < |r| ==> r[i].createdAt >= r[j].createdAt
  {
    var mine := OrderDescending(Filter(table, OfUser(userId)), CreatedAt());
    OrderedMembers(Filter(table, OfUser(userId)), mine);
    Take(mine, 10)
  }

  /**
   * The list is the head of the user's notifications ordered newest first:
   * no listed item is older than an unlisted one, and a user with at most ten
   * notifications sees all of them, and one with more sees exactly ten.
   */
  lemma LatestAreNewest(table: seq<Notification>, userId: UserId)
    ensures var mine := Filter(table, OfUser(userId));
            var sorted := OrderDescending(mine, CreatedAt());
            var r := Latest(table, userId);
            r == sorted[..|r|] && |r| == (if |mine| < 10 then |mine| else 10)
            && (forall i, j :: 0 <= i < |r| <= j < |sorted| ==> r[i].createdAt >= sorted[j].createdAt)
            && (|mine| <= 10 ==> multiset(r) == multiset(mine))
  {
    var mine := Filter(table, OfUser(userId));
    var sorted := OrderDescending(mine, CreatedAt());
    LatestIsHead(table, userId, sorted);
    HeadNotOlder(sorted, |Latest(table, userId)|);
  }

  /** The listed items are the first of the sorted ones. */
  lemma LatestIsHead(table: seq<Notification>, userId: UserId, sorted: seq<Notification>)
    requires sorted == OrderDescending(Filter(table, OfUser(userId)), CreatedAt())
    ensures Latest(table, userId) == sorted[..|Latest(table, userId)|]
    ensures |Filter(table, OfUser(userId))| <= 10 ==> Latest(table, userId) == sorted
  {
  }

  /** In a list sorted newest first, no item of a head is older than an item after it. */
  lemma HeadNotOlder(sorted: seq<Notification>, k: nat)
    requires k <= |sorted|
    requires forall i, j :: 0 <= i < j < |sorted| ==> sorted[i].createdAt >= sorted[j].createdAt
    ensures forall i, j :: 0 <= i < k <= j < |sorted| ==> sorted[..k][i].createdAt >= sorted[j].createdAt
  {
  }

  /** A backend write of read flags, as the panel requests it. */
  datatype ReadUpdate = MarkOne(id: string) | MarkMany(ids: seq<string>)

  class Panel {
    const userId: UserId
    var notifications: seq<Notification>
    var loading: bool
    var updates: seq<ReadUpdate>

    constructor (userId: UserId)
      ensures this.userId == userId && notifications == [] && loading && updates == []
    {
      this.userId := userId;
      notifications := [];
      loading := true;
      updates := [];
    }

    /** `fetchNotifications`; `table` is `None` when the query errors. */
    method FetchNotifications(table: Option<seq<Notification>>)
      modifies this
      ensures table.Some? ==> notifications == Latest(table.value, userId)
      ensures table.None? ==> notifications == old(notifications)
      ensures !loading && updates == old(updates)
    {
      if table.Some? {
        notifications := Latest(table.value, userId);
      }
      loading := false;
    }

    /** `markAsRead`: the local list changes only when the update succeeds. */
    method MarkAsRead(id: string, ok: bool)
      modifies this
      ensures updates == old(updates) + [MarkOne(id)] && loading == old(loading)
      ensures ok ==> notifications == MarkRead(old(notifications), id)
      ensures !ok ==> notifications == old(notifications)
    {
      updates := updates + [MarkOne(id)];
      if ok {
        notifications := MarkRead(notifications, id);
      }
    }

    /** `markAllAsRead`: requests the unread ids; the local list changes only on success. */
    method MarkAllAsRead(ok: bool)
      modifies this
      ensures updates == old(updates) + [MarkMany(UnreadIds(old(notifications)))] && loading == old(loading)
      ensures ok ==> notifications == MarkAll(old(notifications)) && UnreadCount(notifications) == 0
      ensures !ok ==> notifications == old(notifications)
    {
      updates := updates + [MarkMany(UnreadIds(notifications))];
      if ok {
        notifications := MarkAll(notifications);
        MarkAllClearsUnread(old(notifications));
      }
    }

    /**
     * The realtime handler: the channel delivers only this user's inserts,
     * and each one is put in front of the list.
     */
    method OnInsert(n: Notification)
      modifies this
      ensures n.userId == userId ==> notifications == [n] + old(notifications)
      ensures n.userId != userId ==> notifications == old(notifications)
      ensures loading == old(loading) && updates == old(updates)
    {
      if n.userId == userId {
        notifications := [n] + notifications;
      }
    }
  }

  /** A prepended item adds one to the unread count exactly when it is unread, and keeps the rest in order. */
  lemma PrependCount(n: Notification, ns: seq<Notification>)
    ensures UnreadCount([n] + ns) == UnreadCount(ns) + (if n.read then 0 else 1)
    ensures ([n] + ns)[1..] == ns
  {
    FilterAppend([n], ns, Unread());
  }
}
