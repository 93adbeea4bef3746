/**
 * TravelPlannerApp/src/store/notificationStore.ts: the notification list
 * and its derived `unreadCount`. Each action computes the new list, sets
 * the list and the count, and then saves the list under the store's
 * storage key (`stored`; `None` when the key is absent). The storage
 * service (services/storage) is not part of this model: its writes are
 * taken to succeed, and a failing read is the `readOk` parameter.
 */
module NotificationStore {
  import opened Wrappers
  import opened Seqs

  datatype NotificationType = TripReminder | BookingConfirmation | WeatherAlert | PriceAlert | General

  /** A notification; the untyped `data` payload is kept as an optional string. */
  datatype Notification = Notification(
    id: string,
    title: string,
    message: string,
    kind: NotificationType,
    timestamp: int,
    read: bool,
    data: Option<string>)

  /** `Omit<Notification, 'id' | 'timestamp' | 'read'>`. */
  datatype NewNotification = NewNotification(
    title: string,
    message: string,
    kind: NotificationType,
    data: Option<string>)

  function IsUnread(): Notification -> bool
  {
    (n: Notification) => !n.read
  }

  function IdIs(id: string): Notification -> bool
  {
    (n: Notification) => n.id == id
  }

  function IdIsNot(id: string): Notification -> bool
  {
    (n: Notification) => n.id != id
  }

  /** `notifications.filter((n) => !n.read).length`. */
  function UnreadCount(ns: seq<Notification>): (c: nat)
    ensures c <= |ns|
    ensures c == 0 <==> forall k :: 0 <= k < |ns| ==> ns[k].read
  {
    FilterExtremes(ns, IsUnread());
    SomeUnreadCounts(ns);
    Count(ns, IsUnread())
  }

  lemma SomeUnreadCounts(ns: seq<Notification>)
    ensures (exists k :: 0 <= k < |ns| && !ns[k].read) ==> Count(ns, IsUnread()) > 0
  {
    if exists k :: 0 <= k < |ns| && !ns[k].read {
      var k :| 0 <= k < |ns| && !ns[k].read;
      assert IsUnread()(ns[k]);
    }
  }

  /** Counting unread notifications goes element by element from the front. */
  lemma UnreadCountCons(n: Notification, ns: seq<Notification>)
    ensures UnreadCount([n] + ns) == (if n.read then 0 else 1) + UnreadCount(ns)
  {
    assert ([n] + ns)[1..] == ns;
  }

  /** The notification `addNotification` builds: fresh id, the current time, unread. */
  function MakeNotification(d: NewNotification, id: string, now: int): (n: Notification)
    ensures n.id == id && n.timestamp == now && !n.read
    ensures n.title == d.title && n.message == d.message && n.kind == d.kind && n.data == d.data
  {
    Notification(id, d.title, d.message, d.kind, now, false, d.data)
  }

  /** `notifications.map((n) => n.id === id ? { ...n, read: true } : n)`. */
  function MarkRead(ns: seq<Notification>, id: string): (r: seq<Notification>)
    ensures |r| == |ns|
    ensures forall k :: 0 <= k < |ns| ==> r[k] == if ns[k].id == id then ns[k].(read := true) else ns[k]
  {
    MapWhere(ns, IdIs(id), (n: Notification) => n.(read := true))
  }

  /** Marking the same notification read twice is marking it once. */
  lemma MarkReadIdempotent(ns: seq<Notification>, id: string)
    ensures MarkRead(MarkRead(ns, id), id) == MarkRead(ns, id)
  {
    var r := MarkRead(ns, id);
    var rr := MarkRead(r, id);
    forall k | 0 <= k < |ns| ensures rr[k] == r[k] {
      assert r[k].id == ns[k].id;
    }
  }

  /** Marking one id read leaves unread exactly the unread notifications with other ids. */
  lemma {:induction false} MarkReadUnreadCount(ns: seq<Notification>, id: string)
    ensures UnreadCount(MarkRead(ns, id)) == Count(ns, (n: Notification) => !n.read && n.id != id)
    decreases |ns|
  {
    if ns != [] {
      var r := MarkRead(ns, id);
      assert r == [r[0]] + r[1..];
      assert r[1..] == MarkRead(ns[1..], id);
      assert ns == [ns[0]] + ns[1..];
      UnreadCountCons(r[0], r[1..]);
      MarkReadUnreadCount(ns[1..], id);
    }
  }

  /** `notifications.map((n) => ({ ...n, read: true }))`. */
  function MarkAllRead(ns: seq<Notification>): (r: seq<Notification>)
    ensures |r| == |ns|
    ensures forall k :: 0 <= k < |ns| ==> r[k] == ns[k].(read := true)
    ensures UnreadCount(r) == 0
  {
    seq(|ns|, k requires 0 <= k < |ns| => ns[k].(read := true))
  }

  /** Deleting by id keeps exactly the notifications with other ids, in their previous order. */
  lemma DeleteMeaning(ns: seq<Notification>, id: string)
    ensures var r := Filter(ns, IdIsNot(id));
      && IsSubseq(r, ns)
      && (forall k :: 0 <= k < |r| ==> r[k].id != id)
      && (forall k :: 0 <= k < |ns| && ns[k].id != id ==> ns[k] in r)
  {
    FilterIsSubseq(ns, IdIsNot(id));
    var r := Filter(ns, IdIsNot(id));
    forall k | 0 <= k < |r| ensures r[k].id != id {
      assert IdIsNot(id)(r[k]);
    }
    forall k | 0 <= k < |ns| && ns[k].id != id ensures ns[k] in r {
      assert IdIsNot(id)(ns[k]);
    }
  }

  class NotificationStore {
    var notifications: seq<Notification>
    var unreadCount: int
    var loading: bool
    /** The saved list under the store's storage key; `None` when absent. */
    var stored: Option<seq<Notification>>

    /** `unreadCount` is the number of unread notifications. */
    ghost predicate Valid()
      reads this
    {
      unreadCount == UnreadCount(notifications)
    }

    constructor (persisted: Option<seq<Notification>>)
      ensures notifications == [] && unreadCount == 0 && !loading && stored == persisted
      ensures Valid()
    {
      notifications := [];
      unreadCount := 0;
      loading := false;
      stored := persisted;
    }

    /** `addNotification`: the new unread notification goes in front of the others. */
    method AddNotification(notificationData: NewNotification, newId: string, now: int)
      modifies this
      ensures notifications == [MakeNotification(notificationData, newId, now)] + old(notifications)
      ensures Valid()
      ensures old(Valid()) ==> unreadCount == old(unreadCount) + 1
      ensures stored == Some(notifications) && loading == old(loading)
    {
      var newNotification := MakeNotification(notificationData, newId, now);
      var ns := [newNotification] + notifications;
      UnreadCountCons(newNotification, notifications);
      notifications, unreadCount := ns, UnreadCount(ns);
      stored := Some(notifications);
    }

    /** `markAsRead`: only the notifications with that id become read. */
    method MarkAsRead(id: string)
      modifies this
      ensures notifications == MarkRead(old(notifications), id)
      ensures Valid()
      ensures stored == Some(notifications) && loading == old(loading)
    {
      var ns := MarkRead(notifications, id);
      notifications, unreadCount := ns, UnreadCount(ns);
      stored := Some(notifications);
    }

    /** `markAllAsRead`: every notification read, and the count set to zero. */
    method MarkAllAsRead()
      modifies this
      ensures notifications == MarkAllRead(old(notifications))
      ensures unreadCount == 0 && Valid()
      ensures stored == Some(notifications) && loading == old(loading)
    {
      var ns := MarkAllRead(notifications);
      notifications, unreadCount := ns, 0;
      stored := Some(notifications);
    }

    /** `deleteNotification`: drops the notifications with that id. */
    method DeleteNotification(id: string)
      modifies this
      ensures notifications == Filter(old(notifications), IdIsNot(id))
      ensures Valid()
      ensures stored == Some(notifications) && loading == old(loading)
    {
      var ns := Filter(notifications, IdIsNot(id));
      notifications, unreadCount := ns, UnreadCount(ns);
      stored := Some(notifications);
    }

    /** `clearAll`: an empty list, a zero count, and the storage key removed. */
    method ClearAll()
      modifies this
      ensures notifications == [] && unreadCount == 0 && Valid()
      ensures stored == None && loading == old(loading)
    {
      notifications, unreadCount := [], 0;
      stored := None;
    }

    /** `loadNotifications`: missing storage reads as an empty list; `loading` always ends false. */
    method LoadNotifications(readOk: bool)
      modifies this
      ensures readOk ==> notifications == old(stored).GetOr([]) && Valid()
      ensures !readOk ==> notifications == old(notifications) && unreadCount == old(unreadCount)
      ensures !loading && stored == old(stored)
    {
      loading := true;
      if readOk {
        var notificationList := stored.GetOr([]);
        notifications, unreadCount, loading := notificationList, UnreadCount(notificationList), false;
      } else {
        loading := false;
      }
    }
  }
}
