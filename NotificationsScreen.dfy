/**
 * The display logic of the notifications screen
 * (presentation/screen/notifications/NotificationsScreen.kt): the relative
 * time label, the icon and colour per notification type, and the unread dot.
 * The current time and the `dd MMM` date format are parameters.
 */
module NotificationsScreen {
  import opened Wrappers
  import opened Text
  import opened Entities
  import Notifications

  const MinuteMillis := 60_000
  const HourMillis := 3_600_000
  const DayMillis := 86_400_000

  /** Which branch of `formatTimestamp`'s `when` an age in milliseconds falls in. */
  datatype TimeBucket = JustNow | MinutesAgo(minutes: int) | HoursAgo(hours: int) | Yesterday | OlderDate

  /** The bucket of an age `diff = now - timestamp`; a negative age (a clock ahead of this one) is "Just now". */
  function Bucket(diff: int): (b: TimeBucket)
    ensures b.JustNow? <==> diff < MinuteMillis
    ensures b.MinutesAgo? <==> MinuteMillis <= diff < HourMillis
    ensures b.HoursAgo? <==> HourMillis <= diff < DayMillis
    ensures b.Yesterday? <==> DayMillis <= diff < 2 * DayMillis
    ensures b.OlderDate? <==> 2 * DayMillis <= diff
    ensures b.MinutesAgo? ==> 1 <= b.minutes <= 59 && b.minutes * MinuteMillis <= diff < (b.minutes + 1) * MinuteMillis
    ensures b.HoursAgo? ==> 1 <= b.hours <= 23 && b.hours * HourMillis <= diff < (b.hours + 1) * HourMillis
  {
    if diff < MinuteMillis then JustNow
    else if diff < HourMillis then MinutesAgo(diff / MinuteMillis)
    else if diff < DayMillis then HoursAgo(diff / HourMillis)
    else if diff < 2 * DayMillis then Yesterday
    else OlderDate
  }

  /** How recent a bucket reads, from newest (0) to oldest (4). */
  function Rank(b: TimeBucket): nat {
    match b
    case JustNow => 0
    case MinutesAgo(_) => 1
    case HoursAgo(_) => 2
    case Yesterday => 3
    case OlderDate => 4
  }

  /**
   * An older notification never reads as newer: a larger age gives a later
   * bucket, or the same bucket with at least as many minutes or hours.
   */
  lemma BucketMonotone(d1: int, d2: int)
    requires d1 <= d2
    ensures Rank(Bucket(d1)) <= Rank(Bucket(d2))
    ensures Bucket(d1).MinutesAgo? && Bucket(d2).MinutesAgo? ==> Bucket(d1).minutes <= Bucket(d2).minutes
    ensures Bucket(d1).HoursAgo? && Bucket(d2).HoursAgo? ==> Bucket(d1).hours <= Bucket(d2).hours
  {
  }

  /**
   * `formatTimestamp`: "Just now" without a timestamp; otherwise the bucket's
   * text for the age of the timestamp, with `formatDate` for older dates.
   */
  function FormatTimestamp(timestamp: Option<int>, now: int, formatDate: int -> string): (r: string)
    ensures timestamp.None? ==> r == "Just now"
    ensures timestamp.Some? ==> match Bucket(now - timestamp.value)
      case JustNow => r == "Just now"
      case MinutesAgo(m) => r == NatToString(m) + "m ago"
      case HoursAgo(h) => r == NatToString(h) + "h ago"
      case Yesterday => r == "Yesterday"
      case OlderDate => r == formatDate(timestamp.value)
  {
    match timestamp
    case None => "Just now"
    case Some(t) =>
      match Bucket(now - t)
      case JustNow => "Just now"
      case MinutesAgo(m) => IntToString(m) + "m ago"
      case HoursAgo(h) => IntToString(h) + "h ago"
      case Yesterday => "Yesterday"
      case OlderDate => formatDate(t)
  }

  /** The minutes and hours labels are one or two digits followed by their unit. */
  lemma RelativeLabelShape(timestamp: int, now: int, formatDate: int -> string)
    ensures var b := Bucket(now - timestamp);
      var r := FormatTimestamp(Some(timestamp), now, formatDate);
      (b.MinutesAgo? || b.HoursAgo?) ==>
        && 6 <= |r| <= 7
        && AllDigits(r[..|r| - 5])
        && r[|r| - 5..] == (if b.MinutesAgo? then "m ago" else "h ago")
  {
  }

  /** The icon per notification type. */
  datatype Icon = AddTask | CheckCircle | CalendarToday | AlternateEmail | Comment

  /** The icon's background: the theme's primary colour, or a fixed ARGB colour. */
  datatype IconColor = ThemePrimary | Argb(value: int)

  /** `getIconForType`: the icon identifies the type it is drawn for. */
  function IconFor(kind: NotificationType): (i: Icon)
    ensures KindOfIcon(i) == kind
  {
    match kind
    case TASK_ASSIGNED => AddTask
    case STATUS_CHANGED => CheckCircle
    case DEADLINE_CHANGED => CalendarToday
    case MENTIONED => AlternateEmail
    case NEW_COMMENT => Comment
  }

  /** `getIconBackgroundColor`: only assignments take the theme colour; every other type gets an opaque ARGB colour. */
  function ColorFor(kind: NotificationType): (c: IconColor)
    ensures c.ThemePrimary? <==> kind == TASK_ASSIGNED
    ensures c.Argb? ==> 0xFF00_0000 <= c.value <= 0xFFFF_FFFF
  {
    match kind
    case TASK_ASSIGNED => ThemePrimary
    case STATUS_CHANGED => Argb(0xFF4CAF50)
    case DEADLINE_CHANGED => Argb(0xFFFF9800)
    case MENTIONED => Argb(0xFF9C27B0)
    case NEW_COMMENT => Argb(0xFF2196F3)
  }

  /** The type an icon stands for: the inverse of `IconFor`. */
  function KindOfIcon(icon: Icon): NotificationType {
    match icon
    case AddTask => TASK_ASSIGNED
    case CheckCircle => STATUS_CHANGED
    case CalendarToday => DEADLINE_CHANGED
    case AlternateEmail => MENTIONED
    case Comment => NEW_COMMENT
  }

  /** Every icon is drawn for some type: `IconFor` is onto, so `KindOfIcon` undoes it from both sides. */
  lemma IconsCoverTypes(icon: Icon)
    ensures IconFor(KindOfIcon(icon)) == icon
  {
  }

  /** Both maps are total and tell the five types apart: the icon and the colour each identify the type. */
  lemma IconsAndColorsIdentifyType(a: NotificationType, b: NotificationType)
    ensures KindOfIcon(IconFor(a)) == a
    ensures IconFor(a) == IconFor(b) ==> a == b
    ensures ColorFor(a) == ColorFor(b) ==> a == b
  {
  }

  /** The unread dot is drawn exactly for the notifications the view model counts as unread. */
  function ShowsUnreadDot(n: Notification): (b: bool)
    ensures b <==> Notifications.CountUnread([n]) == 1
  {
    !n.isRead
  }

  /** The number of dots on the screen is the unread count the view model publishes with the list. */
  lemma DotsMatchUnreadCount(list: seq<Notification>)
    ensures |set i | 0 <= i < |list| && ShowsUnreadDot(list[i])| == Notifications.StateFor(list).unreadCount
  {
    assert (set i | 0 <= i < |list| && ShowsUnreadDot(list[i])) == Notifications.UnreadIndices(list);
  }
}
