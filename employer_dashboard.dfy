/**
 * The employer dashboard (src/pages/EmployerDashboard.tsx): the job list with
 * its activation toggle and the `activeJobs`/`totalJobs` counters, the
 * application list with its status patch, the application counters and the
 * per-job count. Chart data is hard-coded in the source and not modelled.
 */
module EmployerDashboard {
  import opened Remote
  import opened Domain
  import Dashboard
  import JobListItem

  /** The page's `stats` record. `activeJobs` is an `int`: the source decrements it blindly. */
  datatype Stats = Stats(
    totalJobs: int,
    activeJobs: int,
    totalApplications: nat,
    pendingApplications: nat,
    reviewingApplications: nat,
    acceptedApplications: nat,
    rejectedApplications: nat)

  /** `jobs.filter(job => job.is_active).length`. */
  function CountActive(jobs: seq<Job>): (n: nat)
    ensures n <= |jobs|
    ensures n == 0 <==> forall i :: 0 <= i < |jobs| ==> !jobs[i].is_active
  {
    if jobs == [] then 0 else (if jobs[0].is_active then 1 else 0) + CountActive(jobs[1..])
  }

  /** `jobs.map(job => job.id === id ? { ...job, is_active: isActive } : job)`. */
  function SetActive(jobs: seq<Job>, id: string, isActive: bool): (r: seq<Job>)
    ensures |r| == |jobs|
    ensures forall i :: 0 <= i < |jobs| && jobs[i].id == id ==> r[i] == jobs[i].(is_active := isActive)
    ensures forall i :: 0 <= i < |jobs| && jobs[i].id != id ==> r[i] == jobs[i]
  {
    if jobs == [] then []
    else
      var head := if jobs[0].id == id then jobs[0].(is_active := isActive) else jobs[0];
      [head] + SetActive(jobs[1..], id, isActive)
  }

  /** Flipping the one job with `id` to the opposite state moves the number of
      active jobs by exactly one, up or down. */
  lemma {:induction false} SetActiveMovesCountByOne(jobs: seq<Job>, id: string, isActive: bool, k: nat)
    requires UniqueJobIds(jobs)
    requires k < |jobs| && jobs[k].id == id && jobs[k].is_active != isActive
    ensures CountActive(SetActive(jobs, id, isActive)) == CountActive(jobs) + (if isActive then 1 else -1)
  {
    var r := SetActive(jobs, id, isActive);
    assert r[1..] == SetActive(jobs[1..], id, isActive);
    if k == 0 {
      assert forall i :: 0 <= i < |jobs[1..]| ==> jobs[1..][i].id != id;
      assert r[1..] == jobs[1..];
    } else {
      SetActiveMovesCountByOne(jobs[1..], id, isActive, k - 1);
    }
  }

  /** Toggling a job's flag keeps the ids of the list, so they stay unique. */
  lemma SetActiveKeepsUniqueIds(jobs: seq<Job>, id: string, isActive: bool)
    requires UniqueJobIds(jobs)
    ensures UniqueJobIds(SetActive(jobs, id, isActive))
  {
    var r := SetActive(jobs, id, isActive);
    assert forall i :: 0 <= i < |jobs| ==> r[i].id == jobs[i].id;
  }

  /** The row's toggle, whatever the job's state, moves the active count by one
      in the direction the button names. */
  lemma ToggleFromRowMovesCount(jobs: seq<Job>, k: nat)
    requires UniqueJobIds(jobs) && k < |jobs|
    ensures var c := JobListItem.ToggleArgs(jobs[k]);
      CountActive(SetActive(jobs, c.jobId, c.isActive)) == CountActive(jobs) + (if c.isActive then 1 else -1)
  {
    var c := JobListItem.ToggleArgs(jobs[k]);
    SetActiveMovesCountByOne(jobs, c.jobId, c.isActive, k);
  }

  /** The mount effect: sign in first, and only company accounts stay. */
  function Redirect(user: Option<User>): (n: Navigation)
    ensures n == Stay <==> user.Some? && user.value.userType == CompanyType
    ensures user.None? ==> n == NavigateTo("/signin")
    ensures user.Some? && user.value.userType != CompanyType ==> n == NavigateTo("/dashboard/job-seeker")
  {
    if user.None? then NavigateTo("/signin")
    else if user.value.userType != CompanyType then NavigateTo("/dashboard/job-seeker")
    else Stay
  }

  /** The five `count` replies of the application-statistics queries (`null` when missing). */
  datatype CountReplies = CountReplies(
    total: Option<nat>,
    pending: Option<nat>,
    reviewing: Option<nat>,
    accepted: Option<nat>,
    rejected: Option<nat>)

  /** `count || 0`. */
  function OrZero(n: Option<nat>): (r: nat)
    ensures n.Some? ==> r == n.value
    ensures r == 0 <==> n.None? || n.value == 0
  {
    if n.Some? then n.value else 0
  }

  class EmployerDashboardPage {
    var jobs: seq<Job>
    var applications: seq<Application>
    var stats: Stats

    /** The job counters describe the job list. */
    ghost predicate JobCountersAgree()
      reads this
    {
      stats.totalJobs == |jobs| && stats.activeJobs == CountActive(jobs)
    }

    /** Mounting: empty lists and all counters zero. */
    constructor ()
      ensures jobs == [] && applications == [] && stats == Stats(0, 0, 0, 0, 0, 0, 0)
      ensures JobCountersAgree()
    {
      jobs := [];
      applications := [];
      stats := Stats(0, 0, 0, 0, 0, 0, 0);
    }

    /**
     * `fetchJobs`: without a company row the list is emptied (counters left as
     * they were); a failed select changes nothing; otherwise the list is replaced
     * and both job counters are derived from it.
     */
    method LoadJobs(companyFound: bool, fetched: Fetch<seq<Job>>)
      modifies this
      ensures applications == old(applications)
      ensures !companyFound ==> jobs == [] && stats == old(stats)
      ensures companyFound && fetched.FetchFailed? ==> jobs == old(jobs) && stats == old(stats)
      ensures companyFound && fetched.Fetched? ==>
        && jobs == fetched.rows
        && stats == old(stats).(totalJobs := |fetched.rows|, activeJobs := CountActive(fetched.rows))
      ensures companyFound && fetched.Fetched? ==> JobCountersAgree()
    {
      if !companyFound {
        jobs := [];
        return;
      }
      if fetched.FetchFailed? {
        return;
      }
      jobs := fetched.rows;
      stats := stats.(totalJobs := |fetched.rows|, activeJobs := CountActive(fetched.rows));
    }

    /**
     * `updateJobStatus`: after a successful update the job with `jobId` takes
     * the new state and `activeJobs` moves by one; `totalJobs` is untouched.
     * A failed update changes nothing.
     */
    method UpdateJobStatus(jobId: string, isActive: bool, write: Write)
      modifies this
      ensures applications == old(applications)
      ensures write.Failed? ==> jobs == old(jobs) && stats == old(stats)
      ensures write.Succeeded? ==>
        && jobs == SetActive(old(jobs), jobId, isActive)
        && stats == old(stats).(activeJobs := old(stats.activeJobs) + (if isActive then 1 else -1))
    {
      if write.Failed? {
        return;
      }
      jobs := SetActive(jobs, jobId, isActive);
      stats := stats.(activeJobs := if isActive then stats.activeJobs + 1 else stats.activeJobs - 1);
    }

    /** A click on a row's toggle (the row passes `!job.is_active`) keeps the
        job counters in agreement with the list, whether or not the write succeeds. */
    method ToggleFromRow(k: nat, write: Write)
      requires k < |jobs| && UniqueJobIds(jobs) && JobCountersAgree()
      modifies this
      ensures applications == old(applications)
      ensures write.Failed? ==> jobs == old(jobs) && stats == old(stats)
      ensures write.Succeeded? ==>
        && jobs == SetActive(old(jobs), old(jobs)[k].id, !old(jobs)[k].is_active)
        && stats == old(stats).(activeJobs := old(stats.activeJobs) + (if old(jobs)[k].is_active then -1 else 1))
      ensures JobCountersAgree() && UniqueJobIds(jobs)
      ensures |jobs| == |old(jobs)|
    {
      var c := JobListItem.ToggleArgs(jobs[k]);
      ToggleFromRowMovesCount(jobs, k);
      SetActiveKeepsUniqueIds(jobs, c.jobId, c.isActive);
      UpdateJobStatus(c.jobId, c.isActive, write);
    }

    /**
     * `fetchApplications`: a failed select of either the job ids or the
     * applications changes nothing; a company without jobs has no applications.
     */
    method LoadApplications(jobIds: Fetch<seq<string>>, fetched: Fetch<seq<Application>>)
      modifies this
      ensures jobs == old(jobs) && stats == old(stats)
      ensures jobIds.FetchFailed? ==> applications == old(applications)
      ensures jobIds.Fetched? && jobIds.rows == [] ==> applications == []
      ensures jobIds.Fetched? && jobIds.rows != [] ==>
        applications == (if fetched.Fetched? then fetched.rows else old(applications))
    {
      if jobIds.FetchFailed? {
        return;
      }
      if jobIds.rows == [] {
        applications := [];
        return;
      }
      if fetched.Fetched? {
        applications := fetched.rows;
      }
    }

    /**
     * `fetchApplicationStats`: nothing happens without a company row; a company
     * whose job list is missing or empty gets all five application counters set
     * to zero; otherwise each counter is the reply of its count query, or zero.
     */
    method LoadApplicationStats(companyFound: bool, jobIds: Option<seq<string>>, counts: CountReplies)
      modifies this
      ensures jobs == old(jobs) && applications == old(applications)
      ensures stats.totalJobs == old(stats.totalJobs) && stats.activeJobs == old(stats.activeJobs)
      ensures !companyFound ==> stats == old(stats)
      ensures companyFound && (jobIds.None? || jobIds.value == []) ==>
        stats == old(stats).(totalApplications := 0, pendingApplications := 0,
          reviewingApplications := 0, acceptedApplications := 0, rejectedApplications := 0)
      ensures companyFound && jobIds.Some? && jobIds.value != [] ==>
        stats == old(stats).(totalApplications := OrZero(counts.total),
          pendingApplications := OrZero(counts.pending), reviewingApplications := OrZero(counts.reviewing),
          acceptedApplications := OrZero(counts.accepted), rejectedApplications := OrZero(counts.rejected))
    {
      if !companyFound {
        return;
      }
      if jobIds.None? || jobIds.value == [] {
        stats := stats.(totalApplications := 0, pendingApplications := 0,
          reviewingApplications := 0, acceptedApplications := 0, rejectedApplications := 0);
        return;
      }
      stats := stats.(totalApplications := OrZero(counts.total),
        pendingApplications := OrZero(counts.pending), reviewingApplications := OrZero(counts.reviewing),
        acceptedApplications := OrZero(counts.accepted), rejectedApplications := OrZero(counts.rejected));
    }

    /**
     * `updateApplicationStatus`: the same patch and notification as the
     * combined dashboard. (The page then refetches the counters remotely.)
     */
    method UpdateApplicationStatus(id: string, status: Status, write: Write)
      returns (notice: Option<NotificationDraft>)
      modifies this
      ensures jobs == old(jobs) && stats == old(stats)
      ensures write.Failed? ==> applications == old(applications) && notice.None?
      ensures write.Succeeded? ==> applications == Dashboard.PatchStatus(old(applications), id, status)
      ensures write.Succeeded? ==>
        match Dashboard.FindById(old(applications), id)
        case None => notice.None?
        case Some(app) => notice == Some(Dashboard.StatusNotification(app, status))
    {
      if write.Failed? {
        return None;
      }
      var before := applications;
      applications := Dashboard.PatchStatus(applications, id, status);
      var found := Dashboard.FindById(before, id);
      if found.Some? {
        notice := Some(Dashboard.StatusNotification(found.value, status));
      } else {
        notice := None;
      }
    }

    /** `getApplicationCount(jobId)`: the applications whose `job_id` is `jobId`. */
    function GetApplicationCount(jobId: string): (n: nat)
      reads this
      ensures n <= |applications|
      ensures n == 0 <==> forall i :: 0 <= i < |applications| ==> applications[i].job_id != jobId
    {
      Dashboard.ApplicationCount(applications, jobId)
    }
  }
}
