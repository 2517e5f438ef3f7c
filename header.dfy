/**
 * The top bar's notification bell: a fixed list of notifications, the number
 * of unread ones shown on the bell's badge, and the dot beside each unread item.
 */
module Header {
  import opened JsArray

  datatype Notification = Notification(id: int, kind: string, message: string, time: string, unread: bool)

  const Notifications: seq<Notification> := [
    Notification(1, "slack", "Sarah mentioned you in #dev-team", "5 min ago", true),
    Notification(2, "jira", "PROJ-123 assigned to you", "1 hour ago", true),
    Notification(3, "pr", "Your PR was approved", "2 hours ago", false),
    Notification(4, "slack", "Mike tagged you in a thread", "3 hours ago", false)
  ]

  function IsUnread(): Notification -> bool {
    (n: Notification) => n.unread
  }

  function IsRead(): Notification -> bool {
    (n: Notification) => !n.unread
  }

  /** `notifications.filter((n) => n.unread).length`. */
  function UnreadCount(ns: seq<Notification>): nat {
    Count(ns, IsUnread())
  }

  /** The number of unread notifications, counted one by one from the front. */
  function UnreadFrom(ns: seq<Notification>): nat {
    if ns == [] then 0 else (if ns[0].unread then 1 else 0) + UnreadFrom(ns[1..])
  }

  /** The badge count is the number of unread notifications, and unread plus
      read make up the whole list, so it never exceeds the list's length. */
  lemma {:induction false} UnreadCountCounts(ns: seq<Notification>)
    ensures UnreadCount(ns) == UnreadFrom(ns)
    ensures UnreadCount(ns) + Count(ns, IsRead()) == |ns|
    ensures UnreadCount(ns) <= |ns|
  {
    CountComplement(ns, IsUnread(), IsRead());
    if ns != [] {
      UnreadCountCounts(ns[1..]);
      CountCons(ns, IsUnread());
    }
  }

  /** The dot beside an item in the popover marks an unread notification. */
  predicate DotShown(n: Notification) {
    n.unread
  }

  /** The bell's count badge is rendered when the count is positive. */
  predicate BadgeShown(ns: seq<Notification>) {
    UnreadCount(ns) > 0
  }

  /** The badge is shown exactly when some item in the popover carries a dot,
      and it counts the dotted items. */
  lemma BadgeShownIffSomeDot(ns: seq<Notification>)
    ensures BadgeShown(ns) <==> exists k :: 0 <= k < |ns| && DotShown(ns[k])
    ensures UnreadCount(ns) == Count(ns, (n: Notification) => DotShown(n))
  {
    var r := Filter(ns, IsUnread());
    if BadgeShown(ns) {
      assert r[0] in ns;
    } else {
      assert r == [];
    }
    FilterCongruent(ns, IsUnread(), (n: Notification) => DotShown(n));
  }

  /** On the sample list the badge reads 2: the first two items are unread. */
  lemma SampleUnreadCount()
    ensures UnreadCount(Notifications) == 2 && BadgeShown(Notifications)
  {
    UnreadCountCounts(Notifications);
    var ns := Notifications;
    assert ns[1..][1..][1..][1..] == [];
  }
}
