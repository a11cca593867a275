/** The bell's dropdown: the first ten unread notifications in their order,
    the unread badge and "mark all" button shown only when that list is
    non-empty, the footer link shown when anything is loaded, the icon per
    notification type and the "time ago" buckets. */
module NotificationDropdown {
  import opened Common
  import opened NotificationContext

  /** At most this many unread notifications are listed. */
  const MaxShown: nat := 10

  /** `notifications.filter(n => !n.isRead).slice(0, 10)`: the first ten
      unread notifications, or all of them when there are fewer, in the
      order of the list. */
  function UnreadShown(ns: seq<Notification>): (r: seq<Notification>)
    ensures |r| == if UnreadOf(ns) < MaxShown then UnreadOf(ns) else MaxShown
    ensures r <= Filter(ns, IsUnread)
    ensures forall n :: n in r ==> n in ns && !n.isRead
    ensures IsSubsequence(r, ns)
  {
    var unread := Filter(ns, IsUnread);
    FilterIsSubsequence(ns, IsUnread);
    var k := if |unread| < MaxShown then |unread| else MaxShown;
    PrefixIsSubsequence(unread, k);
    SubsequenceTransitive(unread[..k], unread, ns);
    assert forall n :: n in unread[..k] ==> n in unread;
    unread[..k]
  }

  /** With ten or fewer unread notifications, the list shows all of them. */
  lemma FewUnreadAllShown(ns: seq<Notification>)
    requires UnreadOf(ns) <= MaxShown
    ensures UnreadShown(ns) == Filter(ns, IsUnread)
  {
  }

  /** The badge (showing the listed count) and the "mark all" button. */
  function HasUnread(ns: seq<Notification>): (b: bool)
    ensures b <==> exists n :: n in ns && !n.isRead
  {
    var shown := UnreadShown(ns);
    if |shown| > 0 then
      assert shown[0] in shown;
      true
    else
      assert forall n :: n in ns ==> n in Filter(ns, IsUnread) || n.isRead;
      assert Filter(ns, IsUnread)[..0] == [];
      false
  }

  /** The footer link to the full list. */
  function ShowFooter(ns: seq<Notification>): (b: bool)
    ensures b <==> ns != []
  {
    |ns| > 0
  }

  /** A list of only read notifications still shows the footer but neither
      the badge nor the button. */
  lemma ReadOnlyShowsFooterOnly(ns: seq<Notification>)
    requires ns != [] && forall i :: 0 <= i < |ns| ==> ns[i].isRead
    ensures ShowFooter(ns) && !HasUnread(ns)
  {
  }

  // ---------------------------------------------------------------------
  // Icons

  datatype Icon = CheckCircle | XCircle | TrendingUp | MessageSquare | Package | Users | DollarSign | Info | Gift | Bell

  /** `getNotificationIcon`. */
  function NotificationIcon(notificationType: string): (icon: Icon)
    ensures icon == Bell <==> notificationType !in NotificationTypes
  {
    match notificationType
    case "DEPOSIT_APPROVED" => CheckCircle
    case "DEPOSIT_REJECTED" => XCircle
    case "WITHDRAWAL_APPROVED" => TrendingUp
    case "WITHDRAWAL_REJECTED" => XCircle
    case "SYSTEM_MESSAGE" => MessageSquare
    case "PLAN_PURCHASED" => Package
    case "REFERRAL_BONUS" => Users
    case "DAILY_EARNINGS" => DollarSign
    case "ADMIN_MESSAGE" => Info
    case "FIRST_DEPOSIT_BONUS" => Gift
    case _ => Bell
  }

  /** Both rejection types share the cross icon; every other known type has
      its own. */
  lemma RejectionsShareAnIcon()
    ensures NotificationIcon("DEPOSIT_REJECTED") == NotificationIcon("WITHDRAWAL_REJECTED") == XCircle
    ensures forall i, j :: 0 <= i < j < |NotificationTypes| && NotificationIcon(NotificationTypes[i]) == NotificationIcon(NotificationTypes[j])
              ==> NotificationTypes[i] == "DEPOSIT_REJECTED" && NotificationTypes[j] == "WITHDRAWAL_REJECTED"
  {
    var icons := [CheckCircle, XCircle, TrendingUp, XCircle, MessageSquare, Package, Users, DollarSign, Info, Gift];
    assert forall i :: 0 <= i < |NotificationTypes| ==> NotificationIcon(NotificationTypes[i]) == icons[i];
  }

  // ---------------------------------------------------------------------
  // Time ago

  /** What `formatTimeAgo` shows, from the whole seconds elapsed: "now", a
      number of minutes, hours or days, or the date itself. */
  datatype Ago = Now | MinutesAgo(minutes: int) | HoursAgo(hours: int) | DaysAgo(days: int) | OnDate

  function TimeAgo(seconds: int): (a: Ago)
    ensures seconds < 60 <==> a == Now
    ensures 60 <= seconds < 3600 <==> a.MinutesAgo?
    ensures 3600 <= seconds < 86400 <==> a.HoursAgo?
    ensures 86400 <= seconds < 604800 <==> a.DaysAgo?
    ensures seconds >= 604800 <==> a == OnDate
    ensures a.MinutesAgo? ==> 1 <= a.minutes <= 59 && a.minutes * 60 <= seconds < (a.minutes + 1) * 60
    ensures a.HoursAgo? ==> 1 <= a.hours <= 23 && a.hours * 3600 <= seconds < (a.hours + 1) * 3600
    ensures a.DaysAgo? ==> 1 <= a.days <= 6 && a.days * 86400 <= seconds < (a.days + 1) * 86400
  {
    if seconds < 60 then Now
    else if seconds < 3600 then MinutesAgo(seconds / 60)
    else if seconds < 86400 then HoursAgo(seconds / 3600)
    else if seconds < 604800 then DaysAgo(seconds / 86400)
    else OnDate
  }

  /** The buckets in display order. */
  function AgoRank(a: Ago): int {
    match a
    case Now => 0
    case MinutesAgo(m) => 1
    case HoursAgo(h) => 2
    case DaysAgo(d) => 3
    case OnDate => 4
  }

  /** An older notification never lands in an earlier bucket, and within a
      bucket never shows a smaller number. */
  lemma TimeAgoMonotone(s1: int, s2: int)
    requires s1 <= s2
    ensures AgoRank(TimeAgo(s1)) <= AgoRank(TimeAgo(s2))
    ensures TimeAgo(s1).MinutesAgo? && TimeAgo(s2).MinutesAgo? ==> TimeAgo(s1).minutes <= TimeAgo(s2).minutes
    ensures TimeAgo(s1).HoursAgo? && TimeAgo(s2).HoursAgo? ==> TimeAgo(s1).hours <= TimeAgo(s2).hours
    ensures TimeAgo(s1).DaysAgo? && TimeAgo(s2).DaysAgo? ==> TimeAgo(s1).days <= TimeAgo(s2).days
  {
  }
}
