/**
 * The combined dashboard (src/pages/Dashboard.tsx): its copy of the review
 * buttons, the local patch of the application list after a status write, the
 * notification sent to the applicant, the initial tab and the per-job count.
 * The employer dashboard repeats the patch and the notification text word for
 * word; it uses the definitions here.
 */
module Dashboard {
  import opened Remote
  import opened Domain
  import ApplicationItem
  import Text

  /** The buttons the dashboard renders under an application, in order. */
  function DashboardTransitions(status: Status): (r: seq<Status>)
    ensures forall i :: 0 <= i < |r| ==> r[i] != status && r[i] != Pending
    ensures |r| == 0 <==> status == Accepted || status == Rejected
  {
    match status
    case Pending => [Reviewing, Rejected]
    case Reviewing => [Accepted, Rejected]
    case Accepted => []
    case Rejected => []
  }

  /** The dashboard's buttons follow the same table as the applicant card. */
  lemma DashboardTransitionsAgree(status: Status)
    ensures DashboardTransitions(status) == ApplicationItem.OfferedTransitions(status, true)
  {
  }

  // ---------------------------------------------------------------------
  // Local patch of the application list

  /** `applications.map(app => app.id === id ? { ...app, status } : app)`. */
  function PatchStatus(apps: seq<Application>, id: string, status: Status): (r: seq<Application>)
    ensures |r| == |apps|
    ensures forall i :: 0 <= i < |apps| && apps[i].id == id ==> r[i] == apps[i].(status := status)
    ensures forall i :: 0 <= i < |apps| && apps[i].id != id ==> r[i] == apps[i]
  {
    if apps == [] then []
    else
      var head := if apps[0].id == id then apps[0].(status := status) else apps[0];
      [head] + PatchStatus(apps[1..], id, status)
  }

  /** Patching an id that no application has leaves the list as it was. */
  lemma PatchAbsentIdIsIdentity(apps: seq<Application>, id: string, status: Status)
    requires forall i :: 0 <= i < |apps| ==> apps[i].id != id
    ensures PatchStatus(apps, id, status) == apps
  {
  }

  /** Patching twice with the same id keeps the later status. */
  lemma PatchTwiceKeepsLast(apps: seq<Application>, id: string, s1: Status, s2: Status)
    ensures PatchStatus(PatchStatus(apps, id, s1), id, s2) == PatchStatus(apps, id, s2)
  {
  }

  /** `applications.find(app => app.id === id)`: the first application with that id. */
  function FindById(apps: seq<Application>, id: string): (r: Option<Application>)
    ensures r.None? <==> forall i :: 0 <= i < |apps| ==> apps[i].id != id
    ensures r.Some? ==> exists i :: (0 <= i < |apps| && apps[i] == r.value
      && apps[i].id == id && forall k :: 0 <= k < i ==> apps[k].id != id)
  {
    if apps == [] then None
    else if apps[0].id == id then Some(apps[0])
    else
      var r := FindById(apps[1..], id);
      if r.Some? then
        ghost var i :| 0 <= i < |apps[1..]| && apps[1..][i] == r.value
          && apps[1..][i].id == id && forall k :: 0 <= k < i ==> apps[1..][k].id != id;
        assert apps[i + 1] == r.value;
        r
      else
        r
  }

  // ---------------------------------------------------------------------
  // The notification sent to the applicant after a status change

  /** `statusTitles[status] || 'Application Status Update'`: the generic title
      is the fallback, and the rejected entry happens to repeat it. */
  function StatusTitle(status: Status): (r: string)
    ensures r == "Application Status Update" <==> status == Rejected || status == Pending
  {
    match status
    case Reviewing => "Application Under Review"
    case Accepted => "Application Accepted"
    case Rejected => "Application Status Update"
    case Pending => "Application Status Update"
  }

  /** `statusMessages[status]`, or the generic sentence naming the status.
      The sentences for a decision name it, and the generic one names the
      status. The literals are written in pieces so that the word each one
      names is a piece of its own. */
  function StatusSentence(status: Status): (r: string)
    ensures status == Accepted ==> Text.Includes(r, "accepted")
    ensures status == Rejected ==> Text.Includes(r, "rejected")
    ensures status == Pending ==> Text.Includes(r, StatusName(status))
  {
    match status
    case Reviewing => "Your application is now being reviewed."
    case Accepted =>
      Text.IncludesMiddle("Congratulations! " + "Your application has been ", "accepted", ".");
      "Congratulations! " + "Your application has been " + "accepted" + "."
    case Rejected =>
      Text.IncludesMiddle("Your application has been ", "rejected", ". Thank you for your interest.");
      "Your application has been " + "rejected" + ". Thank you for your interest."
    case Pending =>
      Text.IncludesMiddle("Your application status " + "has been updated to: ", StatusName(Pending), "");
      "Your application status " + "has been updated to: " + StatusName(Pending) + ""
  }

  /** What the template literal prints for `application.job?.title`. */
  function JobTitleText(job: Option<Job>): string
  {
    if job.Some? then job.value.title else "undefined"
  }

  /** The part of the message after the sentence. */
  function PositionSuffix(job: Option<Job>): string
  {
    " for the position of " + JobTitleText(job) + "."
  }

  /** The notification's message: the sentence, then the position, ending with a full stop. */
  function StatusMessage(status: Status, job: Option<Job>): (r: string)
    ensures StatusSentence(status) <= r && |r| > |StatusSentence(status)|
    ensures r[|r| - 1] == '.'
  {
    StatusSentence(status) + PositionSuffix(job)
  }

  /** The row inserted into `notifications` for the applicant. */
  function StatusNotification(app: Application, status: Status): (n: NotificationDraft)
    ensures n.user_id == app.applicant_id && n.related_id == Some(app.job_id)
    ensures n.kind == "status" && !n.read
  {
    NotificationDraft(app.applicant_id, StatusTitle(status), StatusMessage(status, app.job), "status", false,
      Some(app.job_id))
  }

  /** The title names the new status for reviewing and accepted; every other
      status gets the generic title. */
  lemma StatusTitleCases(status: Status)
    ensures StatusTitle(status) == "Application Under Review" <==> status == Reviewing
    ensures StatusTitle(status) == "Application Accepted" <==> status == Accepted
    ensures StatusTitle(status) == "Application Status Update" <==> status == Rejected || status == Pending
  {
  }

  /** The message is the status sentence followed by the position's title. */
  lemma StatusMessageEndsWithPosition(status: Status, job: Job)
    ensures StatusMessage(status, Some(job)) ==
      StatusSentence(status) + " for the position of " + job.title + "."
    ensures StatusSentence(status) <= StatusMessage(status, Some(job))
  {
  }

  /** The message determines the status: no two statuses produce the same text
      for the same position. */
  lemma StatusMessageDeterminesStatus(s1: Status, s2: Status, job: Option<Job>)
    requires StatusMessage(s1, job) == StatusMessage(s2, job)
    ensures s1 == s2
  {
    SameSuffixCancels(StatusSentence(s1), StatusSentence(s2), PositionSuffix(job));
    if s1 != s2 {
      SentencesDistinct(s1, s2);
    }
  }

  lemma SentencesDistinct(s1: Status, s2: Status)
    requires s1 != s2
    ensures StatusSentence(s1) != StatusSentence(s2)
  {
    var a, b := StatusSentence(s1), StatusSentence(s2);
    if {s1, s2} == {Accepted, Pending} {
      assert a[0] != b[0];
    } else {
      assert |a| != |b|;
    }
  }

  lemma SameSuffixCancels(a: string, b: string, tail: string)
    requires a + tail == b + tail
    ensures a == b
  {
    assert |a| == |b|;
    assert a == (a + tail)[..|a|];
    assert b == (b + tail)[..|b|];
  }

  /** The label of `getStatusBadge`'s badge for each status. */
  function BadgeLabel(status: Status): (r: string)
    ensures r != [] && 'A' <= r[0] <= 'Z'
  {
    match status
    case Pending => "Pending"
    case Reviewing => "Reviewing"
    case Accepted => "Accepted"
    case Rejected => "Rejected"
  }

  /** Distinct statuses get distinct badges. */
  lemma BadgeLabelDistinguishes(s1: Status, s2: Status)
    requires s1 != s2
    ensures BadgeLabel(s1) != BadgeLabel(s2)
  {
    var a, b := BadgeLabel(s1), BadgeLabel(s2);
    if |a| == |b| {
      assert a[0] != b[0];
    }
  }

  // ---------------------------------------------------------------------
  // Tabs and counts

  datatype Tab = JobsTab | ApplicationsTab

  /** The tab selected on mount, from the URL's `tab` parameter. */
  function InitialTab(tabParam: Option<string>): (t: Tab)
    ensures t == ApplicationsTab <==> tabParam == Some("applications")
  {
    if tabParam == Some("applications") then ApplicationsTab else JobsTab
  }

  /** `applications.filter(app => app.job_id === jobId).length`. */
  function ApplicationCount(apps: seq<Application>, jobId: string): (n: nat)
    ensures n <= |apps|
    ensures n == 0 <==> forall i :: 0 <= i < |apps| ==> apps[i].job_id != jobId
    ensures n == |apps| <==> forall i :: 0 <= i < |apps| ==> apps[i].job_id == jobId
  {
    if apps == [] then 0
    else (if apps[0].job_id == jobId then 1 else 0) + ApplicationCount(apps[1..], jobId)
  }

  /** Counting distributes over concatenation. */
  lemma {:induction false} ApplicationCountAppend(a: seq<Application>, b: seq<Application>, jobId: string)
    ensures ApplicationCount(a + b, jobId) == ApplicationCount(a, jobId) + ApplicationCount(b, jobId)
  {
    if a != [] {
      assert (a + b)[0] == a[0];
      assert (a + b)[1..] == a[1..] + b;
      assert ApplicationCount(a + b, jobId)
        == (if a[0].job_id == jobId then 1 else 0) + ApplicationCount(a[1..] + b, jobId);
      ApplicationCountAppend(a[1..], b, jobId);
    } else {
      assert a + b == b;
    }
  }

  /** A status change never changes how many applications a job has. */
  lemma {:induction false} PatchKeepsApplicationCount(apps: seq<Application>, id: string, status: Status, jobId: string)
    ensures ApplicationCount(PatchStatus(apps, id, status), jobId) == ApplicationCount(apps, jobId)
  {
    if apps != [] {
      var r := PatchStatus(apps, id, status);
      assert r[1..] == PatchStatus(apps[1..], id, status);
      PatchKeepsApplicationCount(apps[1..], id, status, jobId);
    }
  }

  // ---------------------------------------------------------------------
  // The page state

  class DashboardPage {
    var applications: seq<Application>
    var activeTab: Tab

    /** Mounting with the URL's `tab` parameter; the list is empty until fetched. */
    constructor (tabParam: Option<string>)
      ensures applications == [] && activeTab == InitialTab(tabParam)
    {
      applications := [];
      activeTab := InitialTab(tabParam);
    }

    /** The count shown in a job's row. */
    function JobApplicationCount(jobId: string): (n: nat)
      reads this
      ensures n <= |applications|
    {
      ApplicationCount(applications, jobId)
    }

    /**
     * `updateApplicationStatus`: after the remote update succeeds, patch the
     * list and, when the id was in the list before the patch, return the
     * notification to insert for its applicant. A failed update changes nothing.
     */
    method UpdateApplicationStatus(id: string, status: Status, write: Write)
      returns (notice: Option<NotificationDraft>)
      modifies this
      ensures activeTab == old(activeTab)
      ensures write.Failed? ==> applications == old(applications) && notice.None?
      ensures write.Succeeded? ==> applications == PatchStatus(old(applications), id, status)
      ensures write.Succeeded? ==>
        match FindById(old(applications), id)
        case None => notice.None?
        case Some(app) => notice == Some(StatusNotification(app, status))
    {
      if write.Failed? {
        return None;
      }
      var before := applications;
      applications := PatchStatus(applications, id, status);
      var found := FindById(before, id);
      if found.Some? {
        notice := Some(StatusNotification(found.value, status));
      } else {
        notice := None;
      }
    }
  }
}
