/**
 * The full notifications page (src/pages/NotificationsPage.tsx): the local
 * list after each successful write, the confirmation before clearing, the
 * visibility of the two header buttons and the sign-in redirect.
 */
module NotificationsPage {
  import opened Remote
  import opened Domain
  import opened NotificationList

  /** The mount effect: only a signed-in user stays. */
  function Redirect(user: Option<User>): (n: Navigation)
    ensures n == Stay <==> user.Some?
    ensures user.None? ==> n == NavigateTo("/signin")
  {
    if user.None? then NavigateTo("/signin") else Stay
  }

  class NotificationsPageState {
    var notifications: seq<Notification>
    var loading: bool

    constructor ()
      ensures notifications == [] && loading
    {
      notifications := [];
      loading := true;
    }

    /** `fetchNotifications`: `data || []` on success; loading ends either way. */
    method Load(fetched: Fetch<Option<seq<Notification>>>)
      modifies this
      ensures !loading
      ensures fetched.FetchFailed? ==> notifications == old(notifications)
      ensures fetched.Fetched? ==>
        notifications == if fetched.rows.Some? then fetched.rows.value else []
    {
      if fetched.Fetched? {
        notifications := if fetched.rows.Some? then fetched.rows.value else [];
      }
      loading := false;
    }

    /** `markAsRead`: only the entries with `id` become read. */
    method MarkAsRead(id: string, write: Write)
      modifies this
      ensures loading == old(loading)
      ensures write.Failed? ==> notifications == old(notifications)
      ensures write.Succeeded? ==> notifications == MarkRead(old(notifications), id)
    {
      if write.Succeeded? {
        notifications := MarkRead(notifications, id);
      }
    }

    /** `markAllAsRead`: every entry becomes read, so nothing is left unread. */
    method MarkAllAsRead(write: Write)
      modifies this
      ensures loading == old(loading)
      ensures write.Failed? ==> notifications == old(notifications)
      ensures write.Succeeded? ==> notifications == MarkAllRead(old(notifications))
      ensures write.Succeeded? ==> UnreadCount(notifications) == 0 && !ShowMarkAll()
    {
      if write.Succeeded? {
        notifications := MarkAllRead(notifications);
        MarkAllReadClearsUnread(old(notifications));
        UnreadCountZeroIffNoneUnread(notifications);
      }
    }

    /** `deleteNotification`: the entries with `id` go, the rest stay in order. */
    method DeleteNotification(id: string, write: Write)
      modifies this
      ensures loading == old(loading)
      ensures write.Failed? ==> notifications == old(notifications)
      ensures write.Succeeded? ==> notifications == Delete(old(notifications), id)
    {
      if write.Succeeded? {
        notifications := Delete(notifications, id);
      }
    }

    /**
     * `clearAllNotifications`: a declined confirmation returns before any
     * write; an accepted one empties the list once the delete succeeds.
     * Returns whether the delete was sent.
     */
    method ClearAll(confirmed: bool, write: Write) returns (sent: bool)
      modifies this
      ensures loading == old(loading)
      ensures sent <==> confirmed
      ensures !confirmed || write.Failed? ==> notifications == old(notifications)
      ensures confirmed && write.Succeeded? ==> notifications == [] && !ShowClearAll()
    {
      if !confirmed {
        return false;
      }
      sent := true;
      if write.Succeeded? {
        notifications := [];
      }
    }

    /** "Mark All as Read" is offered while some entry is unread. */
    function ShowMarkAll(): (r: bool)
      reads this
      ensures r <==> exists i :: 0 <= i < |notifications| && !notifications[i].read
    {
      HasUnread(notifications)
    }

    /** "Clear All" is offered while the list is non-empty. */
    function ShowClearAll(): (r: bool)
      reads this
      ensures r <==> |notifications| > 0
    {
      |notifications| > 0
    }
  }
}
