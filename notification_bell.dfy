/**
 * The header bell (src/components/NotificationBell.tsx): the short list it
 * keeps, the live insert, marking read, the unread count and its badge.
 */
module NotificationBell {
  import opened Remote
  import opened Domain
  import opened NotificationList

  /** What the badge on the bell shows. */
  datatype Badge = Hidden | Number(n: nat) | NinePlus

  /** Hidden at zero, '9+' above nine, the number otherwise. */
  function BadgeFor(unread: nat): (b: Badge)
    ensures b == Hidden <==> unread == 0
    ensures b == NinePlus <==> unread > 9
    ensures b.Number? <==> 1 <= unread <= 9
    ensures b.Number? ==> b.n == unread
  {
    if unread == 0 then Hidden else if unread > 9 then NinePlus else Number(unread)
  }

  class NotificationBellState {
    var notifications: seq<Notification>

    constructor ()
      ensures notifications == []
    {
      notifications := [];
    }

    /** `fetchNotifications`: the five most recent rows (`data || []`); a failed
        select changes nothing. */
    method Load(fetched: Fetch<Option<seq<Notification>>>)
      modifies this
      ensures fetched.FetchFailed? ==> notifications == old(notifications)
      ensures fetched.Fetched? ==>
        notifications == if fetched.rows.Some? then fetched.rows.value else []
    {
      if fetched.Fetched? {
        notifications := if fetched.rows.Some? then fetched.rows.value else [];
      }
    }

    /** The realtime insert handler: the new row goes first, nothing is dropped
        (the list can outgrow the five rows of the initial fetch). */
    method OnInsert(n: Notification)
      modifies this
      ensures notifications == Prepend(n, old(notifications))
      ensures |notifications| == |old(notifications)| + 1
      ensures UnreadCount(notifications) == UnreadCount(old(notifications)) + (if n.read then 0 else 1)
    {
      PrependCount(n, notifications);
      notifications := Prepend(n, notifications);
    }

    /** `markAsRead`: only the entries with `id` become read. */
    method MarkAsRead(id: string, write: Write)
      modifies this
      ensures write.Failed? ==> notifications == old(notifications)
      ensures write.Succeeded? ==> notifications == MarkRead(old(notifications), id)
      ensures UnreadCount(notifications) <= UnreadCount(old(notifications))
    {
      if write.Succeeded? {
        MarkReadNeverAddsUnread(notifications, id);
        notifications := MarkRead(notifications, id);
      }
    }

    /** The footer's "Mark all as read": afterwards the count is zero, so the
        badge and the footer disappear. */
    method MarkAllAsRead(write: Write)
      modifies this
      ensures write.Failed? ==> notifications == old(notifications)
      ensures write.Succeeded? ==> notifications == MarkAllRead(old(notifications))
      ensures write.Succeeded? ==> Unread() == 0 && BadgeShown() == Hidden && !ShowFooter()
    {
      if write.Succeeded? {
        MarkAllReadClearsUnread(notifications);
        notifications := MarkAllRead(notifications);
      }
    }

    /** `unreadCount`. */
    function Unread(): (n: nat)
      reads this
      ensures n <= |notifications|
      ensures n == 0 <==> forall i :: 0 <= i < |notifications| ==> notifications[i].read
    {
      UnreadCountZeroIffNoneUnread(notifications);
      UnreadCount(notifications)
    }

    function BadgeShown(): (b: Badge)
      reads this
      ensures b == Hidden <==> forall i :: 0 <= i < |notifications| ==> notifications[i].read
    {
      BadgeFor(Unread())
    }

    /** The footer with "Mark all as read" is shown while the count is positive. */
    function ShowFooter(): (r: bool)
      reads this
      ensures r <==> exists i :: 0 <= i < |notifications| && !notifications[i].read
    {
      Unread() > 0
    }
  }
}
