/**
 * One entry of a notification list (src/components/NotificationItem.tsx):
 * the icon chosen from the notification's type and message, and the
 * click-to-mark-read guard.
 */
module NotificationItem {
  import opened Remote
  import opened Domain
  import Text
  import Dashboard

  /** The six icons an entry can show. */
  datatype Icon = BriefcaseIcon | ChatIcon | CheckIcon | CrossIcon | AlertIcon | BellIcon

  /**
   * `getIcon`: the type picks the icon; a status notification looks at its
   * message, testing 'accepted' before 'rejected'. Every other type, the
   * inserted 'review' and 'system' among them, gets the bell.
   */
  function IconFor(kind: string, message: string): (r: Icon)
    ensures r == BriefcaseIcon <==> kind == "application"
    ensures r == ChatIcon <==> kind == "message"
    ensures r == CheckIcon <==> kind == "status" && Text.Includes(message, "accepted")
    ensures r == CrossIcon <==>
      kind == "status" && !Text.Includes(message, "accepted") && Text.Includes(message, "rejected")
    ensures r == AlertIcon <==>
      kind == "status" && !Text.Includes(message, "accepted") && !Text.Includes(message, "rejected")
    ensures r == BellIcon <==> kind != "application" && kind != "message" && kind != "status"
  {
    if kind == "application" then BriefcaseIcon
    else if kind == "message" then ChatIcon
    else if kind == "status" then
      if Text.Includes(message, "accepted") then CheckIcon
      else if Text.Includes(message, "rejected") then CrossIcon
      else AlertIcon
    else BellIcon
  }

  /** The types that fall to the default bell include the review notice and the
      declared 'system' type. */
  lemma UnhandledKindsShowBell(message: string)
    ensures IconFor("review", message) == BellIcon
    ensures IconFor("system", message) == BellIcon
  {
  }

  /** A message naming both outcomes is shown as accepted. */
  lemma AcceptedTestedFirst(message: string)
    requires Text.Includes(message, "accepted") && Text.Includes(message, "rejected")
    ensures IconFor("status", message) == CheckIcon
  {
  }

  /** The notice a dashboard sends for an acceptance always shows the check icon. */
  lemma AcceptanceNoticeShowsCheck(app: Application)
    ensures var n := Dashboard.StatusNotification(app, Accepted);
      IconFor(n.kind, n.message) == CheckIcon
  {
    Text.IncludesExtend(Dashboard.StatusSentence(Accepted), "accepted", Dashboard.PositionSuffix(app.job));
  }

  /** The click handler marks the entry read only while it is unread. */
  function ClickMarks(n: Notification): (r: Option<string>)
    ensures r.Some? <==> !n.read
    ensures r.Some? ==> r.value == n.id
  {
    if !n.read then Some(n.id) else None
  }
}
