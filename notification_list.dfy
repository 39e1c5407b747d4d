/**
 * The operations the notifications page and the header bell both apply to
 * their local notification list after a successful write
 * (src/pages/NotificationsPage.tsx, src/components/NotificationBell.tsx):
 * mark one read, mark all read, delete one, prepend a live insert, and the
 * unread count.
 */
module NotificationList {
  import opened Domain
  import Lists

  /** `notifications.map(n => n.id === id ? { ...n, read: true } : n)`. */
  function MarkRead(ns: seq<Notification>, id: string): (r: seq<Notification>)
    ensures |r| == |ns|
    ensures forall i :: 0 <= i < |ns| && ns[i].id == id ==> r[i] == ns[i].(read := true)
    ensures forall i :: 0 <= i < |ns| && ns[i].id != id ==> r[i] == ns[i]
  {
    if ns == [] then []
    else
      var head := if ns[0].id == id then ns[0].(read := true) else ns[0];
      [head] + MarkRead(ns[1..], id)
  }

  /** `notifications.map(n => ({ ...n, read: true }))`. */
  function MarkAllRead(ns: seq<Notification>): (r: seq<Notification>)
    ensures |r| == |ns|
    ensures forall i :: 0 <= i < |ns| ==> r[i] == ns[i].(read := true)
  {
    if ns == [] then [] else [ns[0].(read := true)] + MarkAllRead(ns[1..])
  }

  function IdIsNot(id: string): Notification -> bool
  {
    (n: Notification) => n.id != id
  }

  /** `notifications.filter(n => n.id !== id)`. */
  function Delete(ns: seq<Notification>, id: string): (r: seq<Notification>)
    ensures Lists.IsSubsequence(r, ns)
    ensures forall i :: 0 <= i < |r| ==> r[i].id != id
    ensures forall i :: 0 <= i < |ns| && ns[i].id != id ==> ns[i] in r
    ensures forall n :: multiset(r)[n] == if n.id != id then multiset(ns)[n] else 0
  {
    var r := Lists.Filter(ns, IdIsNot(id));
    assert forall i :: 0 <= i < |r| ==> IdIsNot(id)(r[i]);
    assert forall i :: 0 <= i < |ns| && ns[i].id != id ==> IdIsNot(id)(ns[i]);
    assert forall n :: IdIsNot(id)(n) == (n.id != id);
    r
  }

  /** `[payload.new, ...prev]`: a live insert goes first; nothing is dropped. */
  function Prepend(n: Notification, ns: seq<Notification>): (r: seq<Notification>)
    ensures |r| == |ns| + 1
    ensures r[0] == n && r[1..] == ns
  {
    [n] + ns
  }

  function IsUnread(n: Notification): bool
  {
    !n.read
  }

  /** `notifications.filter(n => !n.read).length`, counted one entry at a time. */
  function UnreadCount(ns: seq<Notification>): (n: nat)
    ensures n <= |ns|
    ensures n == 0 <==> forall i :: 0 <= i < |ns| ==> ns[i].read
  {
    if ns == [] then 0
    else
      assert forall i :: 1 <= i < |ns| ==> ns[i] == ns[1..][i - 1];
      (if ns[0].read then 0 else 1) + UnreadCount(ns[1..])
  }

  /** The count is the length of the list of unread entries. */
  lemma {:induction false} UnreadCountIsFilterLength(ns: seq<Notification>)
    ensures UnreadCount(ns) == |Lists.Filter(ns, IsUnread)|
  {
    if ns != [] {
      UnreadCountIsFilterLength(ns[1..]);
    }
  }

  /** `notifications.some(n => !n.read)`. */
  function HasUnread(ns: seq<Notification>): (r: bool)
    ensures r <==> exists i :: 0 <= i < |ns| && !ns[i].read
  {
    if ns == [] then false
    else if !ns[0].read then true
    else
      assert forall i :: 1 <= i < |ns| ==> ns[i] == ns[1..][i - 1];
      HasUnread(ns[1..])
  }

  /** The count is zero exactly when nothing is unread, so the bell's footer and
      the page's "Mark All as Read" button appear for the same lists. */
  lemma {:induction false} UnreadCountZeroIffNoneUnread(ns: seq<Notification>)
    ensures UnreadCount(ns) == 0 <==> !HasUnread(ns)
  {
    if ns != [] {
      UnreadCountZeroIffNoneUnread(ns[1..]);
    }
  }

  /** After marking all read nothing is unread. */
  lemma {:induction false} MarkAllReadClearsUnread(ns: seq<Notification>)
    ensures UnreadCount(MarkAllRead(ns)) == 0
  {
    if ns != [] {
      MarkAllReadClearsUnread(ns[1..]);
      assert MarkAllRead(ns)[1..] == MarkAllRead(ns[1..]);
    }
  }

  /** Marking all read twice is the same as once. */
  lemma MarkAllReadIdempotent(ns: seq<Notification>)
    ensures MarkAllRead(MarkAllRead(ns)) == MarkAllRead(ns)
  {
  }

  /** Marking one read first makes no difference to marking all read. */
  lemma MarkReadThenAll(ns: seq<Notification>, id: string)
    ensures MarkAllRead(MarkRead(ns, id)) == MarkAllRead(ns)
  {
  }

  /** Marking the same id read twice is the same as once. */
  lemma MarkReadIdempotent(ns: seq<Notification>, id: string)
    ensures MarkRead(MarkRead(ns, id), id) == MarkRead(ns, id)
  {
  }

  /** Marking read never increases the unread count. */
  lemma {:induction false} MarkReadNeverAddsUnread(ns: seq<Notification>, id: string)
    ensures UnreadCount(MarkRead(ns, id)) <= UnreadCount(ns)
  {
    if ns != [] {
      MarkReadNeverAddsUnread(ns[1..], id);
      assert MarkRead(ns, id)[1..] == MarkRead(ns[1..], id);
    }
  }

  /** Marking the only entry with a given id, when it is unread, lowers the
      unread count by exactly one. */
  lemma {:induction false} MarkReadOneUnread(ns: seq<Notification>, k: nat)
    requires k < |ns| && !ns[k].read
    requires forall i :: 0 <= i < |ns| && i != k ==> ns[i].id != ns[k].id
    ensures UnreadCount(MarkRead(ns, ns[k].id)) == UnreadCount(ns) - 1
  {
    var id := ns[k].id;
    var r := MarkRead(ns, id);
    var tail := MarkRead(ns[1..], id);
    assert r == [r[0]] + tail;
    assert ns == [ns[0]] + ns[1..];
    PrependCount(r[0], tail);
    PrependCount(ns[0], ns[1..]);
    if k == 0 {
      MarkAbsentIsIdentity(ns[1..], id);
    } else {
      MarkReadOneUnread(ns[1..], k - 1);
    }
  }

  /** Marking an id no entry has changes nothing. */
  lemma MarkAbsentIsIdentity(ns: seq<Notification>, id: string)
    requires forall i :: 0 <= i < |ns| ==> ns[i].id != id
    ensures MarkRead(ns, id) == ns
  {
  }

  /** A live insert adds one to the unread count exactly when it is unread. */
  lemma PrependCount(n: Notification, ns: seq<Notification>)
    ensures UnreadCount(Prepend(n, ns)) == UnreadCount(ns) + (if n.read then 0 else 1)
  {
    assert Prepend(n, ns)[1..] == ns;
  }

  /** Deleting never increases the unread count. */
  lemma {:induction false} DeleteNeverAddsUnread(ns: seq<Notification>, id: string)
    ensures UnreadCount(Delete(ns, id)) <= UnreadCount(ns)
  {
    if ns != [] {
      DeleteNeverAddsUnread(ns[1..], id);
    }
  }
}
