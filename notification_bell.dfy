/** The mobile app's notification bell: the list it holds, its unread count, the local
    updates that mark one or all notifications read, and the badge over the bell. Each
    update builds a new list, as the component's state setters do. */
module NotificationBell {
  import opened Wrappers
  import opened Strings

  datatype Notification = Notification(id: int, message: string, read: bool, createdAt: string)

  /** `notifications.filter(n => !n.read).length`. */
  function UnreadCount(ns: seq<Notification>): (c: nat)
    ensures c <= |ns|
    ensures c == 0 <==> forall i :: 0 <= i < |ns| ==> ns[i].read
  {
    if ns == [] then 0
    else UnreadCount(ns[..|ns| - 1]) + (if ns[|ns| - 1].read then 0 else 1)
  }

  /** The local update once the request marking notification `id` read has returned, with
      any HTTP status (only a thrown network error skips it): every entry with that id is
      read, every other entry is unchanged, and the order stays. */
  function MarkAsRead(ns: seq<Notification>, id: int): (r: seq<Notification>)
    ensures |r| == |ns|
    ensures forall i :: 0 <= i < |ns| ==>
              r[i] == (if ns[i].id == id then ns[i].(read := true) else ns[i])
  {
    seq(|ns|, i requires 0 <= i < |ns| => if ns[i].id == id then ns[i].(read := true) else ns[i])
  }

  /** The local "mark all as read": every entry read, everything else about it unchanged. */
  function MarkAllRead(ns: seq<Notification>): (r: seq<Notification>)
    ensures |r| == |ns|
    ensures forall i :: 0 <= i < |ns| ==> r[i] == ns[i].(read := true)
  {
    seq(|ns|, i requires 0 <= i < |ns| => ns[i].(read := true))
  }

  /** The badge over the bell: shown only when asked for and something is unread, reading
      the count up to 9 and "9+" beyond. */
  function Badge(showBadge: bool, unread: nat): (b: Option<string>)
    ensures b.Some? <==> showBadge && unread > 0
    ensures b.Some? ==> (b.value == "9+" <==> unread > 9)
    ensures b.Some? && unread <= 9 ==> b.value == NatToString(unread) && |b.value| == 1
  {
    if showBadge && unread > 0 then
      Some(if unread > 9 then "9+" else NatToString(unread))
    else None
  }

  /** The number of entries carrying `id` that are still unread. */
  function UnreadWithId(ns: seq<Notification>, id: int): nat {
    if ns == [] then 0
    else
      var last := ns[|ns| - 1];
      UnreadWithId(ns[..|ns| - 1], id) + (if last.id == id && !last.read then 1 else 0)
  }

  /** Marking all read leaves nothing unread. */
  lemma {:induction false} MarkAllReadClearsCount(ns: seq<Notification>)
    ensures UnreadCount(MarkAllRead(ns)) == 0
  {
    var r := MarkAllRead(ns);
    assert forall i :: 0 <= i < |r| ==> r[i].read;
  }

  /** Marking all read twice is marking all read once. */
  lemma {:induction false} MarkAllReadIdempotent(ns: seq<Notification>)
    ensures MarkAllRead(MarkAllRead(ns)) == MarkAllRead(ns)
  {
    var once := MarkAllRead(ns);
    var twice := MarkAllRead(once);
    assert forall i :: 0 <= i < |ns| ==> twice[i] == once[i];
  }

  /** Marking the same notification read twice is marking it read once. */
  lemma {:induction false} MarkAsReadIdempotent(ns: seq<Notification>, id: int)
    ensures MarkAsRead(MarkAsRead(ns, id), id) == MarkAsRead(ns, id)
  {
    var once := MarkAsRead(ns, id);
    var twice := MarkAsRead(once, id);
    assert forall i :: 0 <= i < |ns| ==> twice[i] == once[i];
  }

  /** Marking `id` read lowers the unread count by exactly the unread entries with that id. */
  lemma {:induction false} MarkAsReadCount(ns: seq<Notification>, id: int)
    ensures UnreadCount(MarkAsRead(ns, id)) == UnreadCount(ns) - UnreadWithId(ns, id)
    decreases |ns|
  {
    if ns != [] {
      var init := ns[..|ns| - 1];
      var r := MarkAsRead(ns, id);
      assert r[..|r| - 1] == MarkAsRead(init, id);
      MarkAsReadCount(init, id);
      UnreadWithIdBound(init, id);
    }
  }

  /** There are never more unread entries with one id than unread entries. */
  lemma {:induction false} UnreadWithIdBound(ns: seq<Notification>, id: int)
    ensures UnreadWithId(ns, id) <= UnreadCount(ns)
    decreases |ns|
  {
    if ns != [] {
      UnreadWithIdBound(ns[..|ns| - 1], id);
    }
  }

  /** With ids unique, marking one unread notification read lowers the count by one. */
  lemma {:induction false} MarkOneUnread(ns: seq<Notification>, k: int)
    requires 0 <= k < |ns| && !ns[k].read
    requires forall i, j :: 0 <= i < j < |ns| ==> ns[i].id != ns[j].id
    ensures UnreadCount(MarkAsRead(ns, ns[k].id)) == UnreadCount(ns) - 1
  {
    OnlyUnreadWithId(ns, k);
    MarkAsReadCount(ns, ns[k].id);
  }

  lemma {:induction false} OnlyUnreadWithId(ns: seq<Notification>, k: int)
    requires 0 <= k < |ns| && !ns[k].read
    requires forall i, j :: 0 <= i < j < |ns| ==> ns[i].id != ns[j].id
    ensures UnreadWithId(ns, ns[k].id) == 1
    decreases |ns|
  {
    var init := ns[..|ns| - 1];
    if k == |ns| - 1 {
      NoneWithId(init, ns[k].id);
    } else {
      OnlyUnreadWithId(init, k);
    }
  }

  lemma {:induction false} NoneWithId(ns: seq<Notification>, id: int)
    requires forall i :: 0 <= i < |ns| ==> ns[i].id != id
    ensures UnreadWithId(ns, id) == 0
    decreases |ns|
  {
    if ns != [] {
      NoneWithId(ns[..|ns| - 1], id);
    }
  }
}
