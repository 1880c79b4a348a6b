/**
 * The parent notifications screen: the fixed notification list, the
 * all/unread tabs, the unread count behind the badge and the "Mark all as
 * read" row, the empty state of each tab, and the style chosen per
 * notification type.
 */
module Notifications {
  import opened Wrappers
  import Seqs

  datatype NotificationType = Grade | Attendance | Fee | Event | Announcement | Report

  datatype Notification = Notification(
    id: int,
    kind: NotificationType,
    title: string,
    message: string,
    time: string,
    isRead: bool,
    child: Option<string>,
    actionLabel: Option<string>)

  /** The list the screen shows, newest first. */
  const AllNotifications: seq<Notification> := [
    Notification(1, Grade, "New Grade Posted",
      "Alex received an A in Mathematics Quiz. View the detailed score breakdown.",
      "2 hours ago", false, Some("Alex"), Some("View Grade")),
    Notification(2, Fee, "Payment Due Soon",
      "Tuition fee of $450.00 for Alex is due by Oct 30. Pay now to avoid late charges.",
      "5 hours ago", false, Some("Alex"), Some("Pay Now")),
    Notification(3, Event, "Parent-Teacher Meeting",
      "Scheduled for Nov 5 at 3:00 PM. Please confirm your attendance.",
      "1 day ago", false, None, Some("Confirm")),
    Notification(4, Attendance, "Attendance Alert",
      "Alex was marked present for all classes today. Keep up the good attendance!",
      "1 day ago", true, Some("Alex"), None),
    Notification(5, Report, "Report Card Available",
      "Alex's mid-term report card is now available. View academic progress.",
      "3 days ago", true, Some("Alex"), Some("View Report")),
    Notification(6, Announcement, "School Holiday",
      "School will remain closed on Nov 1st for Founder's Day celebration.",
      "4 days ago", true, None, None),
    Notification(7, Fee, "Payment Received",
      "Thank you! Your payment of $450.00 for Term 1 tuition has been received.",
      "1 week ago", true, None, None)
  ]

  /** The string a type is tagged with. */
  function TypeKey(t: NotificationType): string
  {
    match t
    case Grade => "grade"
    case Attendance => "attendance"
    case Fee => "fee"
    case Event => "event"
    case Announcement => "announcement"
    case Report => "report"
  }

  datatype NotificationStyle = NotificationStyle(bg: string, color: string, icon: string)

  const FallbackIcon: string := "notifications"

  /** `getNotificationStyle`. */
  function GetNotificationStyle(kind: string): (st: NotificationStyle)
    ensures st.icon == FallbackIcon <==> kind !in {"grade", "attendance", "fee", "event", "announcement", "report"}
  {
    if kind == "grade" then NotificationStyle("#DBEAFE", "#2563EB", "school")
    else if kind == "attendance" then NotificationStyle("#D1FAE5", "#059669", "checkmark-circle")
    else if kind == "fee" then NotificationStyle("#FEF3C7", "#D97706", "card")
    else if kind == "event" then NotificationStyle("#F3E8FF", "#9333EA", "calendar")
    else if kind == "announcement" then NotificationStyle("#E0E7FF", "#4F46E5", "megaphone")
    else if kind == "report" then NotificationStyle("#FEE2E2", "#DC2626", "document-text")
    else NotificationStyle("#F3F4F6", "#6B7280", FallbackIcon)
  }

  /**
   * Each of the six types has an icon of its own, never the fallback's; a
   * string that names no type gets the fallback icon.
   */
  lemma NotificationIconsDistinct(s: NotificationType, t: NotificationType, other: string)
    requires forall k: NotificationType :: other != TypeKey(k)
    ensures s != t ==> GetNotificationStyle(TypeKey(s)).icon != GetNotificationStyle(TypeKey(t)).icon
    ensures GetNotificationStyle(TypeKey(s)).icon != FallbackIcon
    ensures GetNotificationStyle(other) == NotificationStyle("#F3F4F6", "#6B7280", FallbackIcon)
  {
    assert other != TypeKey(Grade) && other != TypeKey(Attendance) && other != TypeKey(Fee);
    assert other != TypeKey(Event) && other != TypeKey(Announcement) && other != TypeKey(Report);
  }

  datatype Tab = AllTab | UnreadTab

  /** The callback both `filter` calls use. */
  predicate IsUnread(n: Notification)
  {
    !n.isRead
  }

  /** `filteredNotifications`. */
  function Filtered(ns: seq<Notification>, tab: Tab): (r: seq<Notification>)
    ensures tab == AllTab ==> r == ns
    ensures tab == UnreadTab ==> forall n | n in ns :: n in r <==> !n.isRead
    ensures forall n | n in r :: n in ns
  {
    if tab == UnreadTab then Seqs.Filter(ns, IsUnread) else ns
  }

  /** `unreadCount`. */
  function UnreadCount(ns: seq<Notification>): (c: nat)
    ensures c <= |ns|
  {
    |Seqs.Filter(ns, IsUnread)|
  }

  /** The count is the number of unread items and the length of what the unread tab shows. */
  lemma UnreadCountMatchesTab(ns: seq<Notification>)
    ensures UnreadCount(ns) == Seqs.Count(ns, IsUnread)
    ensures UnreadCount(ns) == |Filtered(ns, UnreadTab)|
  {
    Seqs.FilterLength(ns, IsUnread);
  }

  /** The unread tab shows the unread items in their order: filtering two halves and joining is filtering the whole. */
  lemma UnreadTabKeepsOrder(a: seq<Notification>, b: seq<Notification>)
    ensures Filtered(a + b, UnreadTab) == Filtered(a, UnreadTab) + Filtered(b, UnreadTab)
  {
    Seqs.FilterConcat(a, b, IsUnread);
  }

  /** The unread badge and the "Mark all as read" row: both shown when `unreadCount > 0`. */
  predicate ShowsUnreadControls(ns: seq<Notification>)
  {
    UnreadCount(ns) > 0
  }

  /** The controls appear exactly when some notification is unread. */
  lemma {:induction false} UnreadControlsIffSomeUnread(ns: seq<Notification>)
    ensures ShowsUnreadControls(ns) <==> exists i :: 0 <= i < |ns| && !ns[i].isRead
  {
    Seqs.FilterHeadIsFirst(ns, IsUnread);
  }

  const EmptyUnreadText: string := "You're all caught up! No unread notifications."
  const EmptyAllText: string := "You don't have any notifications yet."

  /** The empty state's subtitle, when the active tab shows nothing. */
  function EmptyState(ns: seq<Notification>, tab: Tab): (r: Option<string>)
    ensures r.Some? <==> |Filtered(ns, tab)| == 0
    ensures r.Some? ==> r.value == (if tab == UnreadTab then EmptyUnreadText else EmptyAllText)
  {
    if |Filtered(ns, tab)| > 0 then None
    else if tab == UnreadTab then Some(EmptyUnreadText)
    else Some(EmptyAllText)
  }

  /**
   * The unread tab is empty exactly when everything is read, and then the
   * controls are hidden; the all tab is empty only for an empty list.
   */
  lemma EmptyStateIff(ns: seq<Notification>)
    ensures EmptyState(ns, UnreadTab).Some? <==> forall i :: 0 <= i < |ns| ==> ns[i].isRead
    ensures EmptyState(ns, UnreadTab).Some? <==> !ShowsUnreadControls(ns)
    ensures EmptyState(ns, AllTab).Some? <==> ns == []
  {
    UnreadControlsIffSomeUnread(ns);
  }

  /** The parts a card shows besides its title, time and message. */
  datatype Card = Card(unreadDot: bool, childBadge: Option<string>, action: Option<string>, style: NotificationStyle)

  /** A card: a dot when unread, a badge for a non-empty child name, a button for a non-empty action label. */
  function CardOf(n: Notification): (c: Card)
    ensures c.unreadDot <==> !n.isRead
    ensures c.childBadge.Some? <==> n.child.Some? && n.child.value != ""
    ensures c.action.Some? <==> n.actionLabel.Some? && n.actionLabel.value != ""
    ensures c.style == GetNotificationStyle(TypeKey(n.kind))
  {
    Card(!n.isRead,
         if n.child.Some? && n.child.value != "" then n.child else None,
         if n.actionLabel.Some? && n.actionLabel.value != "" then n.actionLabel else None,
         GetNotificationStyle(TypeKey(n.kind)))
  }

  /** When the unread items are exactly a prefix, the unread tab shows that prefix. */
  lemma UnreadPrefix(ns: seq<Notification>, k: nat)
    requires k <= |ns|
    requires forall i :: 0 <= i < k ==> !ns[i].isRead
    requires forall i :: k <= i < |ns| ==> ns[i].isRead
    ensures Filtered(ns, UnreadTab) == ns[..k]
  {
    var front, back := ns[..k], ns[k..];
    assert ns == front + back;
    Seqs.FilterConcat(front, back, IsUnread);
    Seqs.FilterKeepsAll(front, IsUnread);
    EmptyStateIff(back);
  }

  /** The fixed list: the first three are unread, so the badge reads 3 and the unread tab shows them. */
  lemma FixtureUnread()
    ensures Filtered(AllNotifications, UnreadTab) == AllNotifications[..3]
    ensures UnreadCount(AllNotifications) == 3
  {
    var ns := AllNotifications;
    assert !ns[0].isRead && !ns[1].isRead && !ns[2].isRead;
    assert ns[3].isRead && ns[4].isRead && ns[5].isRead && ns[6].isRead;
    UnreadPrefix(ns, 3);
  }
}
