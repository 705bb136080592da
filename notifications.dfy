/** The notification list: newest first, seeded with four entries; each new
    notification is inserted at the front and at most one entry is removed from
    the tail, so the list stays within five only if it already was.
 */
module Notifications {

  /** Entries the panel keeps when it starts within the limit. */
  const NotificationLimit: nat := 5

  datatype Notification = Notification(title: string, message: string, time: string)

  /** The list after `n` is inserted at the front and, if it then has more than
      five entries, its last entry is removed. */
  function Shown(items: seq<Notification>, n: Notification): (r: seq<Notification>)
    ensures |r| <= |items| + 1 && r == ([n] + items)[..|r|]
  {
    var s := [n] + items;
    if |s| > NotificationLimit then s[..|s| - 1] else s
  }

  /** The new entry is first, the list grows by at most one and loses at most
      its last entry, and a list within five entries stays within five. */
  lemma ShownProperties(items: seq<Notification>, n: Notification)
    ensures var r := Shown(items, n);
      && |r| > 0 && r[0] == n
      && |items| <= |r| <= |items| + 1
      && r[1..] == items[..|r| - 1]
      && (|items| <= NotificationLimit ==> |r| <= NotificationLimit)
      && (|items| >= NotificationLimit ==> |r| == |items|)
  {
  }

  /** A list already over the limit is not brought back within it. */
  lemma OverfullListStaysOverfull(items: seq<Notification>, n: Notification)
    requires |items| > NotificationLimit
    ensures |Shown(items, n)| > NotificationLimit
  {
  }

  /** The four entries the page is seeded with, newest first, appended in order. */
  function SeededNotifications(): (items: seq<Notification>)
    ensures |items| == 4 <= NotificationLimit
  {
    [
      Notification("System Initialized", "Disaster Response Coordinator is now operational", "2 minutes ago"),
      Notification("Database Synced", "Clinical trial database updated with 12 new entries", "15 minutes ago"),
      Notification("Performance Optimized", "Matching latency reduced by 15%", "1 hour ago"),
      Notification("Resource Allocated", "Emergency supplies deployed to North Region", "3 hours ago")
    ]
  }

  class NotificationPanel {
    var items: seq<Notification>

    ghost predicate Valid()
      reads this
    {
      |items| <= NotificationLimit
    }

    /** The panel starts with the seeded entries, in order. */
    constructor InitialNotifications()
      ensures items == SeededNotifications() && Valid()
    {
      items := SeededNotifications();
    }

    /** Shows a new notification stamped "Just now". */
    method ShowNotification(title: string, message: string)
      requires Valid()
      modifies this
      ensures Valid()
      ensures items == Shown(old(items), Notification(title, message, "Just now"))
      ensures items[0] == Notification(title, message, "Just now")
    {
      items := [Notification(title, message, "Just now")] + items;
      if |items| > NotificationLimit {
        items := items[..|items| - 1];
      }
    }
  }
}
