/** The notification store shared by the header bell and its dropdown: the
    loaded notifications, the unread counter and the loading flag, with the
    operations that reload them and mark notifications read. The four
    server calls it makes are taken as outcomes. */
module NotificationContext {
  import opened Common

  datatype Notification = Notification(id: int, title: string, message: string, notificationType: string,
                                       isRead: bool, createdAt: string, readAt: Option<string>)

  /** The ten notification types the server knows. */
  const NotificationTypes: seq<string> := [
    "DEPOSIT_APPROVED", "DEPOSIT_REJECTED", "WITHDRAWAL_APPROVED", "WITHDRAWAL_REJECTED", "SYSTEM_MESSAGE",
    "PLAN_PURCHASED", "REFERRAL_BONUS", "DAILY_EARNINGS", "ADMIN_MESSAGE", "FIRST_DEPOSIT_BONUS"]

  /** The shapes the body of the notifications answer can take: none at
      all, a page whose `content` is an array, a bare array, or anything
      else. */
  datatype NotificationsBody = NoData | Paged(content: seq<Notification>) | Bare(items: seq<Notification>) | Unrecognised

  /** The list a load keeps: the page content, the bare array, or nothing. */
  function LoadedList(body: NotificationsBody): (r: seq<Notification>)
    ensures body.Paged? ==> r == body.content
    ensures body.Bare? ==> r == body.items
    ensures body.NoData? || body.Unrecognised? ==> r == []
  {
    match body
    case Paged(content) => content
    case Bare(items) => items
    case _ => []
  }

  predicate IsUnread(n: Notification) { !n.isRead }

  /** The number of notifications not yet read. */
  function UnreadOf(ns: seq<Notification>): (k: nat)
    ensures k <= |ns|
  {
    Count(ns, IsUnread)
  }

  /** `markAsRead`'s list update: the notifications with that id become
      read, the others stay as they are. */
  function MarkRead(ns: seq<Notification>, id: int): (r: seq<Notification>)
    ensures |r| == |ns|
    ensures forall i :: 0 <= i < |ns| && ns[i].id == id ==> r[i] == ns[i].(isRead := true)
    ensures forall i :: 0 <= i < |ns| && ns[i].id != id ==> r[i] == ns[i]
  {
    if ns == [] then []
    else [if ns[0].id == id then ns[0].(isRead := true) else ns[0]] + MarkRead(ns[1..], id)
  }

  /** `markAllAsRead`'s list update. */
  function MarkAllRead(ns: seq<Notification>): (r: seq<Notification>)
    ensures |r| == |ns|
    ensures forall i :: 0 <= i < |ns| ==> r[i] == ns[i].(isRead := true)
  {
    if ns == [] then [] else [ns[0].(isRead := true)] + MarkAllRead(ns[1..])
  }

  /** After marking everything read nothing is unread. */
  lemma {:induction false} MarkAllReadLeavesNoneUnread(ns: seq<Notification>)
    ensures UnreadOf(MarkAllRead(ns)) == 0
  {
    if ns != [] {
      MarkAllReadLeavesNoneUnread(ns[1..]);
      assert MarkAllRead(ns)[1..] == MarkAllRead(ns[1..]);
    }
  }

  /** Marking one id read never raises the unread number ... */
  lemma {:induction false} MarkReadNeverRaisesUnread(ns: seq<Notification>, id: int)
    ensures UnreadOf(MarkRead(ns, id)) <= UnreadOf(ns)
  {
    if ns != [] {
      MarkReadNeverRaisesUnread(ns[1..], id);
      assert MarkRead(ns, id)[1..] == MarkRead(ns[1..], id);
    }
  }

  /** ... and an id carried by no unread notification leaves it as it was. */
  lemma {:induction false} MarkReadOfReadIdKeepsUnread(ns: seq<Notification>, id: int)
    requires forall i :: 0 <= i < |ns| && ns[i].id == id ==> ns[i].isRead
    ensures UnreadOf(MarkRead(ns, id)) == UnreadOf(ns)
  {
    if ns != [] {
      MarkReadOfReadIdKeepsUnread(ns[1..], id);
      assert MarkRead(ns, id)[1..] == MarkRead(ns[1..], id);
    }
  }

  /** Marking the one unread notification with an id lowers the unread
      number by exactly one. */
  lemma {:induction false} MarkReadOfUniqueUnread(ns: seq<Notification>, i: int)
    requires 0 <= i < |ns| && !ns[i].isRead
    requires forall j :: 0 <= j < |ns| && j != i ==> ns[j].id != ns[i].id
    ensures UnreadOf(MarkRead(ns, ns[i].id)) == UnreadOf(ns) - 1
  {
    var id := ns[i].id;
    assert MarkRead(ns, id)[1..] == MarkRead(ns[1..], id);
    if i == 0 {
      MarkReadOfReadIdKeepsUnread(ns[1..], id);
    } else {
      MarkReadOfUniqueUnread(ns[1..], i - 1);
    }
  }

  /** `Math.max(0, count - 1)`. */
  function Decrement(count: int): (r: int)
    ensures r >= 0
    ensures count >= 1 ==> r == count - 1
    ensures count < 1 ==> r == 0
  {
    if count - 1 > 0 then count - 1 else 0
  }

  class NotificationStore {
    var unreadCount: int
    var notifications: seq<Notification>
    var loading: bool
    var hasInitialized: bool

    constructor()
      ensures unreadCount == 0 && notifications == [] && !loading && !hasInitialized
    {
      unreadCount := 0;
      notifications := [];
      loading := false;
      hasInitialized := false;
    }

    /** The counter agrees with the list. Every load establishes it. */
    predicate CountMatches()
      reads this
    {
      unreadCount == UnreadOf(notifications)
    }

    /** The first effect: both loads start once, and the store is marked
        initialised. */
    method Initialize() returns (started: bool)
      modifies this
      ensures started == !old(hasInitialized) && hasInitialized
      ensures started ==> loading
      ensures !started ==> loading == old(loading)
      ensures notifications == old(notifications) && unreadCount == old(unreadCount)
    {
      started := !hasInitialized;
      if started {
        loading := true;
        hasInitialized := true;
      }
    }

    /** `loadUnreadCount`: the count the server reports, or 0 on failure. */
    method LoadUnreadCountDone(outcome: Outcome<int>)
      modifies this
      ensures outcome.Success? ==> unreadCount == outcome.data
      ensures outcome.Failure? ==> unreadCount == 0
      ensures notifications == old(notifications) && loading == old(loading) && hasInitialized == old(hasInitialized)
    {
      unreadCount := if outcome.Success? then outcome.data else 0;
    }

    method LoadNotificationsStart()
      modifies this
      ensures loading
      ensures notifications == old(notifications) && unreadCount == old(unreadCount) && hasInitialized == old(hasInitialized)
    {
      loading := true;
    }

    /** `loadNotifications`: on success the list is whatever the body holds
        (possibly nothing) and the counter is recomputed from it; a failure
        empties the list and zeroes the counter. The counter matches the
        list afterwards in every case. */
    method LoadNotificationsDone(outcome: Outcome<NotificationsBody>)
      modifies this
      ensures outcome.Success? ==> notifications == LoadedList(outcome.data)
      ensures outcome.Failure? ==> notifications == [] && unreadCount == 0
      ensures CountMatches() && !loading && hasInitialized == old(hasInitialized)
    {
      if outcome.Success? {
        notifications := LoadedList(outcome.data);
      } else {
        notifications := [];
      }
      unreadCount := UnreadOf(notifications);
      loading := false;
    }

    /** `markAsRead`: on success the id is marked read and the counter goes
        down by one without going below zero, whether or not that
        notification was unread; a failure changes nothing. */
    method MarkAsRead(id: int, outcome: Outcome<()>)
      modifies this
      ensures outcome.Success? ==> notifications == MarkRead(old(notifications), id)
                                   && unreadCount == Decrement(old(unreadCount))
      ensures outcome.Failure? ==> notifications == old(notifications) && unreadCount == old(unreadCount)
      ensures outcome.Success? ==> unreadCount >= 0
      ensures loading == old(loading) && hasInitialized == old(hasInitialized)
    {
      if outcome.Success? {
        notifications := MarkRead(notifications, id);
        unreadCount := Decrement(unreadCount);
      }
    }

    /** `markAllAsRead`: on success everything is read and the counter is
        0; a failure changes nothing. */
    method MarkAllAsRead(outcome: Outcome<()>)
      modifies this
      ensures outcome.Success? ==> notifications == MarkAllRead(old(notifications)) && unreadCount == 0 && CountMatches()
      ensures outcome.Failure? ==> notifications == old(notifications) && unreadCount == old(unreadCount)
      ensures loading == old(loading) && hasInitialized == old(hasInitialized)
    {
      if outcome.Success? {
        notifications := MarkAllRead(notifications);
        unreadCount := 0;
        MarkAllReadLeavesNoneUnread(old(notifications));
      }
    }
  }

  /** Marking the only unread notification with an id keeps the counter in
      step with the list ... */
  lemma MarkUniqueUnreadKeepsCount(ns: seq<Notification>, i: int)
    requires 0 <= i < |ns| && !ns[i].isRead
    requires forall j :: 0 <= j < |ns| && j != i ==> ns[j].id != ns[i].id
    ensures Decrement(UnreadOf(ns)) == UnreadOf(MarkRead(ns, ns[i].id))
  {
    MarkReadOfUniqueUnread(ns, i);
  }

  /** ... but marking an already-read one still lowers the counter, so the
      bell then shows one fewer than the list holds. The dropdown lists only
      unread notifications and is the only caller of `markAsRead`, so this
      needs a second click on an item before the list re-renders; it is a
      property of the context's update, not a defect claimed of the page. */
  lemma MarkingReadTwiceUndercounts()
    ensures var ns := [Notification(1, "t", "m", "ADMIN_MESSAGE", true, "", None),
                       Notification(2, "t", "m", "ADMIN_MESSAGE", false, "", None)];
      UnreadOf(MarkRead(ns, 1)) == 1 && Decrement(UnreadOf(ns)) == 0
  {
    var ns := [Notification(1, "t", "m", "ADMIN_MESSAGE", true, "", None),
               Notification(2, "t", "m", "ADMIN_MESSAGE", false, "", None)];
    MarkReadOfReadIdKeepsUnread(ns, 1);
    assert ns[1..][1..] == [];
    assert UnreadOf(ns) == 1;
  }
}
