/**
 * The notifications screen's view model
 * (presentation/screen/notifications/NotificationsViewModel.kt): a state
 * replaced whole on every emission of the current-user and notification
 * streams, with an unread count, and two commands that need a signed-in
 * user. Each stream emission is one method call; the repository calls a
 * command makes are returned to the caller.
 */
module Notifications {
  import opened Wrappers
  import opened Entities

  datatype NotificationsState = NotificationsState(notifications: seq<Notification>, unreadCount: int, isLoading: bool)

  datatype NotificationsCommand = MarkAsRead(notificationId: string) | ClearAll

  /** The repository call a command makes for the signed-in user. */
  datatype RepositoryCall = MarkNotificationAsRead(userId: string, notificationId: string) | ClearAllNotifications(userId: string)

  /** The positions of the unread notifications in a list. */
  function UnreadIndices(list: seq<Notification>): set<int> {
    set i | 0 <= i < |list| && !list[i].isRead
  }

  /** `notifications.count { !it.isRead }`. */
  function CountUnread(list: seq<Notification>): (r: nat)
    ensures r == |UnreadIndices(list)|
    ensures r <= |list|
    ensures r == 0 <==> forall i :: 0 <= i < |list| ==> list[i].isRead
    decreases |list|
  {
    if list == [] then 0
    else
      var n := |list| - 1;
      var prefix := list[..n];
      var rest := CountUnread(prefix);
      assert UnreadIndices(list) == UnreadIndices(prefix) + (if list[n].isRead then {} else {n}) by {
        forall i | 0 <= i < n
          ensures list[i] == prefix[i]
        {
        }
      }
      assert n !in UnreadIndices(prefix);
      rest + (if list[n].isRead then 0 else 1)
  }

  /** Counting distributes over concatenation. */
  lemma {:induction false} CountUnreadAppend(a: seq<Notification>, b: seq<Notification>)
    ensures CountUnread(a + b) == CountUnread(a) + CountUnread(b)
    decreases |b|
  {
    if b == [] {
      assert a + b == a;
    } else {
      var n := |b| - 1;
      assert (a + b)[..|a + b| - 1] == a + b[..n];
      CountUnreadAppend(a, b[..n]);
    }
  }

  /** Marking one unread notification as read, as the repository does for `MarkAsRead`, lowers the count by exactly one. */
  lemma MarkingReadLowersCount(list: seq<Notification>, i: int)
    requires 0 <= i < |list| && !list[i].isRead
    ensures CountUnread(list[i := list[i].(isRead := true)]) == CountUnread(list) - 1
  {
    var marked := list[i := list[i].(isRead := true)];
    assert UnreadIndices(marked) == UnreadIndices(list) - {i};
  }

  /** The state the screen starts in: nothing yet, loading. */
  const InitialState := NotificationsState([], 0, true)

  /** The state written for one notification list: the list, its unread count, not loading. */
  function StateFor(list: seq<Notification>): (r: NotificationsState)
    ensures r.notifications == list && !r.isLoading
    ensures 0 <= r.unreadCount <= |list|
    ensures r.unreadCount == |UnreadIndices(list)|
  {
    NotificationsState(list, CountUnread(list), false)
  }

  /** The command's repository call: none without a signed-in user. */
  function CallFor(cmd: NotificationsCommand, userId: Option<string>): (r: Option<RepositoryCall>)
    ensures r.None? <==> userId.None?
    ensures r.Some? && cmd.MarkAsRead? ==> r.value == MarkNotificationAsRead(userId.value, cmd.notificationId)
    ensures r.Some? && cmd.ClearAll? ==> r.value == ClearAllNotifications(userId.value)
  {
    match userId
    case None => None
    case Some(uid) =>
      match cmd
      case MarkAsRead(id) => Some(MarkNotificationAsRead(uid, id))
      case ClearAll => Some(ClearAllNotifications(uid))
  }

  class NotificationsViewModel {
    var state: NotificationsState

    /** The unread count always matches the list it is shown with. */
    predicate Valid()
      reads this
    {
      state.unreadCount == CountUnread(state.notifications) && state.unreadCount <= |state.notifications|
    }

    constructor ()
      ensures state == InitialState && Valid()
    {
      state := InitialState;
    }

    /** The current-user stream emitted null: empty list, no unread, not loading. */
    method OnSignedOut()
      modifies this
      ensures state == NotificationsState([], 0, false) && Valid()
    {
      state := NotificationsState([], 0, false);
    }

    /** The notification stream emitted a list: it replaces the whole state. */
    method OnNotifications(list: seq<Notification>)
      modifies this
      ensures state == StateFor(list) && Valid()
    {
      state := StateFor(list);
    }

    /** `processCommand` with the first value of the current-user stream; the state is not touched. */
    method ProcessCommand(cmd: NotificationsCommand, userId: Option<string>) returns (call: Option<RepositoryCall>)
      ensures call == CallFor(cmd, userId)
    {
      call := None;
      if userId.Some? {
        match cmd {
          case MarkAsRead(id) =>
            call := Some(MarkNotificationAsRead(userId.value, id));
          case ClearAll =>
            call := Some(ClearAllNotifications(userId.value));
        }
      }
    }
  }
}
