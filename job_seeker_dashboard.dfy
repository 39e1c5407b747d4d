/**
 * The job seeker's dashboard (src/pages/JobSeekerDashboard.tsx): the
 * skill-based job recommendation, the application counters and status filter,
 * the bookmark list with its removal, and the role redirect.
 */
module JobSeekerDashboard {
  import opened Remote
  import opened Domain
  import Text
  import Lists

  // ---------------------------------------------------------------------
  // Recommendation

  /** `${job.title} ${job.description} ${job.requirements}`. */
  function JobText(job: Job): string
  {
    job.title + " " + job.description + " " + job.requirements
  }

  /** `skills.some(skill => text.includes(skill.toLowerCase()))`. */
  function AnySkillIn(text: string, skills: seq<string>): (r: bool)
    ensures r <==> exists k :: 0 <= k < |skills| && Text.Includes(text, Text.ToLower(skills[k]))
  {
    if skills == [] then false
    else if Text.Includes(text, Text.ToLower(skills[0])) then true
    else
      var r := AnySkillIn(text, skills[1..]);
      assert r ==> exists k :: 0 <= k < |skills| && Text.Includes(text, Text.ToLower(skills[k])) by {
        if r {
          var k :| 0 <= k < |skills[1..]| && Text.Includes(text, Text.ToLower(skills[1..][k]));
          assert skills[k + 1] == skills[1..][k];
        }
      }
      assert (exists k :: 0 <= k < |skills| && Text.Includes(text, Text.ToLower(skills[k]))) ==> r by {
        if k :| 0 <= k < |skills| && Text.Includes(text, Text.ToLower(skills[k])) {
          assert k != 0;
          assert skills[1..][k - 1] == skills[k];
        }
      }
      r
  }

  /** The test a job must pass to be recommended: some skill, lowercased, occurs
      in the lowercased job text. */
  function SkillMatcher(skills: seq<string>): Job -> bool
  {
    job => AnySkillIn(Text.ToLower(JobText(job)), skills)
  }

  /** The fetched active jobs that pass the skill test, in fetched order. */
  function MatchingJobs(jobs: seq<Job>, skills: seq<string>): (r: seq<Job>)
    ensures Lists.IsSubsequence(r, jobs)
    ensures forall i :: 0 <= i < |r| ==> AnySkillIn(Text.ToLower(JobText(r[i])), skills)
    ensures forall j :: multiset(r)[j] == (if AnySkillIn(Text.ToLower(JobText(j)), skills) then multiset(jobs)[j] else 0)
  {
    var r := Lists.Filter(jobs, SkillMatcher(skills));
    assert forall j :: SkillMatcher(skills)(j) == AnySkillIn(Text.ToLower(JobText(j)), skills);
    r
  }

  /** `.filter(...).slice(0, 5)`: the first five matching jobs. */
  function Recommend(jobs: seq<Job>, skills: seq<string>): (r: seq<Job>)
    ensures |r| <= 5
    ensures r <= MatchingJobs(jobs, skills)
    ensures |r| == if |MatchingJobs(jobs, skills)| < 5 then |MatchingJobs(jobs, skills)| else 5
  {
    var m := MatchingJobs(jobs, skills);
    if |m| <= 5 then m else m[..5]
  }

  /** Every recommended job mentions one of the skills, and the recommendation
      is an order-preserving selection of the fetched jobs. */
  lemma RecommendIsMatchingSubsequence(jobs: seq<Job>, skills: seq<string>)
    ensures Lists.IsSubsequence(Recommend(jobs, skills), jobs)
    ensures forall i :: 0 <= i < |Recommend(jobs, skills)| ==>
      exists k :: 0 <= k < |skills| &&
        Text.Includes(Text.ToLower(JobText(Recommend(jobs, skills)[i])), Text.ToLower(skills[k]))
  {
    var m := MatchingJobs(jobs, skills);
    Lists.PrefixOfSubsequence(Recommend(jobs, skills), m, jobs);
    forall i | 0 <= i < |Recommend(jobs, skills)|
      ensures AnySkillIn(Text.ToLower(JobText(Recommend(jobs, skills)[i])), skills)
    {
      assert Recommend(jobs, skills)[i] == m[i];
      assert SkillMatcher(skills)(m[i]);
    }
  }

  /** No matching job is skipped before the cut-off: a matching job preceded by
      fewer than five matching jobs is recommended, at the position its
      predecessors leave for it. */
  lemma NoMatchSkippedBeforeCutoff(jobs: seq<Job>, skills: seq<string>, i: nat)
    requires i < |jobs| && SkillMatcher(skills)(jobs[i])
    requires |MatchingJobs(jobs[..i], skills)| < 5
    ensures var before := |MatchingJobs(jobs[..i], skills)|;
      before < |Recommend(jobs, skills)| && Recommend(jobs, skills)[before] == jobs[i]
  {
    MatchAfterEarlierMatches(jobs, skills, i);
  }

  /** A matching job sits in the matching list right after the matches before it. */
  lemma MatchAfterEarlierMatches(jobs: seq<Job>, skills: seq<string>, i: nat)
    requires i < |jobs| && SkillMatcher(skills)(jobs[i])
    ensures var before := |MatchingJobs(jobs[..i], skills)|;
      before < |MatchingJobs(jobs, skills)| && MatchingJobs(jobs, skills)[before] == jobs[i]
  {
    var p := SkillMatcher(skills);
    assert jobs[..i] + jobs[i..] == jobs;
    Lists.FilterAppendFirst(jobs[..i], jobs[i..], p);
  }

  // ---------------------------------------------------------------------
  // Application counters and the status filter

  function StatusIs(s: Status): Application -> bool
  {
    (app: Application) => app.status == s
  }

  /** `applications.filter(app => app.status === s).length`, counted one entry at a time. */
  function CountStatus(apps: seq<Application>, s: Status): (n: nat)
    ensures n <= |apps|
    ensures n == 0 <==> forall i :: 0 <= i < |apps| ==> apps[i].status != s
  {
    if apps == [] then 0
    else
      assert forall i :: 1 <= i < |apps| ==> apps[i] == apps[1..][i - 1];
      (if apps[0].status == s then 1 else 0) + CountStatus(apps[1..], s)
  }

  /** The four status counts partition the list. */
  lemma {:induction false} StatusCountsPartition(apps: seq<Application>)
    ensures CountStatus(apps, Pending) + CountStatus(apps, Reviewing)
      + CountStatus(apps, Accepted) + CountStatus(apps, Rejected) == |apps|
  {
    if apps != [] {
      StatusCountsPartition(apps[1..]);
    }
  }

  /** The value of the status `<select>`: 'all' or one of the four statuses. */
  datatype StatusFilter = All | Only(status: Status)

  /** `filteredApplications`. */
  function FilterApplications(apps: seq<Application>, filter: StatusFilter): (r: seq<Application>)
    ensures filter.All? ==> r == apps
    ensures filter.Only? ==> Lists.IsSubsequence(r, apps)
    ensures filter.Only? ==> forall i :: 0 <= i < |r| ==> r[i].status == filter.status
    ensures filter.Only? ==> forall i :: 0 <= i < |apps| && apps[i].status == filter.status ==> apps[i] in r
    ensures filter.Only? ==> forall a :: multiset(r)[a] == if a.status == filter.status then multiset(apps)[a] else 0
  {
    match filter
    case All => apps
    case Only(s) =>
      var r := Lists.Filter(apps, StatusIs(s));
      assert forall i :: 0 <= i < |r| ==> StatusIs(s)(r[i]);
      assert forall i :: 0 <= i < |apps| && apps[i].status == s ==> StatusIs(s)(apps[i]);
      assert forall a :: StatusIs(s)(a) == (a.status == s);
      r
  }

  /** The filtered list under a status is as long as that status's counter. */
  lemma {:induction false} FilteredLengthIsCount(apps: seq<Application>, s: Status)
    ensures |FilterApplications(apps, Only(s))| == CountStatus(apps, s)
  {
    if apps != [] {
      FilteredLengthIsCount(apps[1..], s);
    }
  }

  // ---------------------------------------------------------------------
  // Bookmarks

  function IdIsNot(id: string): Bookmark -> bool
  {
    (b: Bookmark) => b.id != id
  }

  /** `bookmarks.filter(bookmark => bookmark.id !== bookmarkId)`. */
  function WithoutBookmark(bookmarks: seq<Bookmark>, id: string): (r: seq<Bookmark>)
    ensures Lists.IsSubsequence(r, bookmarks)
    ensures forall i :: 0 <= i < |r| ==> r[i].id != id
    ensures forall i :: 0 <= i < |bookmarks| && bookmarks[i].id != id ==> bookmarks[i] in r
    ensures forall b :: multiset(r)[b] == if b.id != id then multiset(bookmarks)[b] else 0
  {
    var r := Lists.Filter(bookmarks, IdIsNot(id));
    assert forall i :: 0 <= i < |r| ==> IdIsNot(id)(r[i]);
    assert forall i :: 0 <= i < |bookmarks| && bookmarks[i].id != id ==> IdIsNot(id)(bookmarks[i]);
    assert forall b :: IdIsNot(id)(b) == (b.id != id);
    r
  }

  /** Removing a listed bookmark from a list of distinct ids drops exactly one entry. */
  lemma {:induction false} WithoutListedBookmarkDropsOne(bookmarks: seq<Bookmark>, k: nat)
    requires UniqueBookmarkIds(bookmarks) && k < |bookmarks|
    ensures |WithoutBookmark(bookmarks, bookmarks[k].id)| == |bookmarks| - 1
  {
    var id := bookmarks[k].id;
    if k == 0 {
      Lists.FilterKeepsAll(bookmarks[1..], IdIsNot(id));
    } else {
      assert bookmarks[1..][k - 1] == bookmarks[k];
      WithoutListedBookmarkDropsOne(bookmarks[1..], k - 1);
    }
  }

  // ---------------------------------------------------------------------
  // The page

  /** The mount effect: sign in first, and only applicant accounts stay. */
  function Redirect(user: Option<User>): (n: Navigation)
    ensures n == Stay <==> user.Some? && user.value.userType == ApplicantType
    ensures user.None? ==> n == NavigateTo("/signin")
    ensures user.Some? && user.value.userType != ApplicantType ==> n == NavigateTo("/dashboard/employer")
  {
    if user.None? then NavigateTo("/signin")
    else if user.value.userType != ApplicantType then NavigateTo("/dashboard/employer")
    else Stay
  }

  /** The page's `stats` record; `bookmarkedJobs` is decremented blindly, so it is an `int`. */
  datatype SeekerStats = SeekerStats(
    totalApplications: nat,
    pendingApplications: nat,
    acceptedApplications: nat,
    bookmarkedJobs: int)

  class JobSeekerDashboardPage {
    var applications: seq<Application>
    var bookmarks: seq<Bookmark>
    var recommendedJobs: seq<Job>
    var statusFilter: StatusFilter
    var stats: SeekerStats

    /** The application counters describe the application list. */
    ghost predicate ApplicationCountersAgree()
      reads this
    {
      && stats.totalApplications == |applications|
      && stats.pendingApplications == CountStatus(applications, Pending)
      && stats.acceptedApplications == CountStatus(applications, Accepted)
    }

    /** The bookmark counter describes the bookmark list. */
    ghost predicate BookmarkCounterAgrees()
      reads this
    {
      stats.bookmarkedJobs == |bookmarks|
    }

    constructor ()
      ensures applications == [] && bookmarks == [] && recommendedJobs == []
      ensures statusFilter == All && stats == SeekerStats(0, 0, 0, 0)
      ensures ApplicationCountersAgree() && BookmarkCounterAgrees()
    {
      applications := [];
      bookmarks := [];
      recommendedJobs := [];
      statusFilter := All;
      stats := SeekerStats(0, 0, 0, 0);
    }

    /** The list shown under the current status filter. */
    function FilteredApplications(): (r: seq<Application>)
      reads this
      ensures statusFilter.All? ==> r == applications
      ensures statusFilter.Only? ==> |r| == CountStatus(applications, statusFilter.status)
    {
      match statusFilter
      case All => FilterApplications(applications, All)
      case Only(s) =>
        FilteredLengthIsCount(applications, s);
        FilterApplications(applications, Only(s))
    }

    /** `fetchApplications`: on success the list is replaced and the three
        application counters are derived from it; a failed select changes nothing. */
    method LoadApplications(fetched: Fetch<seq<Application>>)
      modifies this
      ensures bookmarks == old(bookmarks) && recommendedJobs == old(recommendedJobs)
      ensures statusFilter == old(statusFilter) && stats.bookmarkedJobs == old(stats.bookmarkedJobs)
      ensures fetched.FetchFailed? ==> applications == old(applications) && stats == old(stats)
      ensures fetched.Fetched? ==> applications == fetched.rows && ApplicationCountersAgree()
    {
      if fetched.FetchFailed? {
        return;
      }
      var rows := fetched.rows;
      if |rows| > 0 {
        applications := rows;
        stats := stats.(totalApplications := |rows|,
          pendingApplications := CountStatus(rows, Pending),
          acceptedApplications := CountStatus(rows, Accepted));
      } else {
        applications := [];
        stats := stats.(totalApplications := 0, pendingApplications := 0, acceptedApplications := 0);
      }
    }

    /** `fetchBookmarks`: on success the list is replaced and counted. */
    method LoadBookmarks(fetched: Fetch<seq<Bookmark>>)
      modifies this
      ensures applications == old(applications) && recommendedJobs == old(recommendedJobs)
      ensures statusFilter == old(statusFilter)
      ensures fetched.FetchFailed? ==> bookmarks == old(bookmarks) && stats == old(stats)
      ensures fetched.Fetched? ==>
        bookmarks == fetched.rows && stats == old(stats).(bookmarkedJobs := |fetched.rows|)
    {
      if fetched.FetchFailed? {
        return;
      }
      bookmarks := fetched.rows;
      stats := stats.(bookmarkedJobs := |fetched.rows|);
    }

    /**
     * `fetchRecommendedJobs`: with no skills (a missing list counts as empty)
     * the recent active jobs are shown as fetched, bypassing the skill filter;
     * otherwise the first five skill matches among all active jobs. A failed
     * select on the chosen path leaves the recommendation as it was.
     */
    method LoadRecommended(skills: Fetch<Option<seq<string>>>, recent: Fetch<seq<Job>>, active: Fetch<seq<Job>>)
      modifies this
      ensures applications == old(applications) && bookmarks == old(bookmarks)
      ensures statusFilter == old(statusFilter) && stats == old(stats)
      ensures skills.FetchFailed? ==> recommendedJobs == old(recommendedJobs)
      ensures skills.Fetched? && (skills.rows.None? || skills.rows.value == []) ==>
        recommendedJobs == if recent.Fetched? then recent.rows else old(recommendedJobs)
      ensures skills.Fetched? && skills.rows.Some? && skills.rows.value != [] ==>
        recommendedJobs == if active.Fetched? then Recommend(active.rows, skills.rows.value) else old(recommendedJobs)
    {
      if skills.FetchFailed? {
        return;
      }
      var userSkills := if skills.rows.Some? then skills.rows.value else [];
      if |userSkills| == 0 {
        if recent.Fetched? {
          recommendedJobs := recent.rows;
        }
        return;
      }
      if active.Fetched? {
        recommendedJobs := Recommend(active.rows, userSkills);
      }
    }

    /** The status `<select>` changes the filter and nothing else. */
    method SetStatusFilter(filter: StatusFilter)
      modifies this
      ensures statusFilter == filter
      ensures applications == old(applications) && bookmarks == old(bookmarks)
      ensures recommendedJobs == old(recommendedJobs) && stats == old(stats)
    {
      statusFilter := filter;
    }

    /** `removeBookmark`: after a successful delete the entries with that id are
        dropped and the counter goes down by one; a failed delete changes nothing. */
    method RemoveBookmark(id: string, write: Write)
      modifies this
      ensures applications == old(applications) && recommendedJobs == old(recommendedJobs)
      ensures statusFilter == old(statusFilter)
      ensures write.Failed? ==> bookmarks == old(bookmarks) && stats == old(stats)
      ensures write.Succeeded? ==>
        && bookmarks == WithoutBookmark(old(bookmarks), id)
        && stats == old(stats).(bookmarkedJobs := old(stats.bookmarkedJobs) - 1)
    {
      if write.Failed? {
        return;
      }
      bookmarks := WithoutBookmark(bookmarks, id);
      stats := stats.(bookmarkedJobs := stats.bookmarkedJobs - 1);
    }

    /** Removing a bookmark shown in the list keeps the counter equal to the
        list's length, whether or not the delete succeeds. */
    method RemoveListedBookmark(k: nat, write: Write)
      requires k < |bookmarks| && UniqueBookmarkIds(bookmarks) && BookmarkCounterAgrees()
      modifies this
      ensures applications == old(applications) && recommendedJobs == old(recommendedJobs)
      ensures statusFilter == old(statusFilter)
      ensures write.Failed? ==> bookmarks == old(bookmarks) && stats == old(stats)
      ensures write.Succeeded? ==>
        && bookmarks == WithoutBookmark(old(bookmarks), old(bookmarks)[k].id)
        && stats == old(stats).(bookmarkedJobs := old(stats.bookmarkedJobs) - 1)
      ensures BookmarkCounterAgrees()
      ensures write.Succeeded? ==> |bookmarks| == |old(bookmarks)| - 1
    {
      WithoutListedBookmarkDropsOne(bookmarks, k);
      RemoveBookmark(bookmarks[k].id, write);
    }
  }
}
