# Job portal client logic in Dafny

This project models the client-side logic of a small job board. The board is a
React single-page application whose data lives in a hosted Postgres store
(Supabase). Two kinds of users sign in:

- applicants browse and search jobs, bookmark them, apply, and follow their
  applications on a dashboard;
- companies post jobs, switch them on and off, and move applications through
  a review workflow (pending, reviewing, then accepted or rejected). Each step
  sends a notification to the applicant.

What the model covers:

- **Routing** (`App`): the route guards and who sees which page.
- **Pages**, one class each with the state the page keeps:
  - `JobsList`: the job search and its URL parameters;
  - `JobDetail`: a job's page, with bookmarking and applying;
  - `PostJob`: the form for posting a job;
  - `Dashboard`: the combined dashboard;
  - `EmployerDashboard` and `JobSeekerDashboard`: the two role dashboards;
  - `NotificationsPage`: the notifications page.
- **Components**: the header's notification bell (`NotificationBell`), a
  notification entry (`NotificationItem`), the applicant card
  (`ApplicationItem`), the employer's job row (`JobListItem`) and the profile
  form's skill list (`ProfileForm`).

How the model is built:

- Every remote call is a parameter of the operation that makes it: a `Write`
  (`Succeeded`/`Failed`), or a `Fetch` (`Fetched(rows)`/`FetchFailed`).
- A field that a page keeps in React state becomes a field of a class.
- Each handler becomes a method. Its contract gives the whole new state as a
  function of the old state and the remote reply.
- Lists are derived with `Lists.Filter` (`Array.prototype.filter`) and with
  per-page `map` functions. The lemmas about these functions carry the
  properties the pages rely on:
  - counters that stay equal to the lists they count;
  - review buttons that only move an application forward;
  - unread counts that only go down when entries are marked read;
  - skill lists that never gain a duplicate;
  - guards and pages that agree on who may see each dashboard.

Module `Text` holds the JavaScript string operations the pages use
(`toLowerCase`, `includes`, `trim`). Module `Domain` holds the records of
`src/types/index.ts`. Module `NotificationList` holds the list operations that
the notifications page and the bell both write out. Module `FormRules` holds
the `required`/`minLength` rules of react-hook-form.

## Model

| member | source | states |
|---|---|---|
| Text.ToLower | src/pages/JobsList.tsx:106 | `toLowerCase` keeps the length and lower-cases each ASCII letter in place |
| Text.ToLowerIdempotent | src/pages/JobsList.tsx:106 | lower-casing a lower-cased string changes nothing |
| Text.Includes | src/pages/JobsList.tsx:106 | `includes` is true exactly when the needle occurs at some index of the haystack |
| Text.IncludesMiddle | src/components/NotificationItem.tsx:19 | a message built around a word always includes that word |
| Text.IncludesExtend | src/components/NotificationItem.tsx:19 | text appended to a message never removes an occurrence already in it |
| Text.LeadingSpaces | src/components/dashboard/ProfileForm.tsx:30-33 | counts the white space at the front: every character before the count is white space, the one at the count is not |
| Text.TrailingSpaces | src/components/dashboard/ProfileForm.tsx:30-33 | counts the white space at the back: every character in the last count positions is white space, the one just before them is not |
| Text.Trim | src/components/dashboard/ProfileForm.tsx:30-33 | `trim` returns the slice of the string that starts after its leading white space, is followed only by white space, and neither starts nor ends with white space |
| Text.TrimEmptyIffBlank | src/components/dashboard/ProfileForm.tsx:30 | `!newSkill.trim()` holds exactly when the entry is all white space |
| Text.TrimIdempotent | src/components/dashboard/ProfileForm.tsx:32-33 | trimming an already trimmed entry changes nothing |
| Lists.Filter | src/pages/NotificationsPage.tsx:94 | `filter` keeps exactly the passing elements, in order (a subsequence), each passing value as many times as it occurs and no failing value |
| Lists.FilterAppend | src/pages/JobSeekerDashboard.tsx:275-280 | filtering distributes over concatenation |
| Lists.FilterAppendFirst | src/pages/JobSeekerDashboard.tsx:275-280 | a passing element right after a prefix lands in the filtered list right after the prefix's passing elements |
| Lists.FilterKeepsAll | src/pages/JobsList.tsx:103-108 | when every element passes, the list comes back unchanged |
| Lists.PrefixOfSubsequence | src/pages/JobSeekerDashboard.tsx:280 | `slice(0, 5)` of an order-preserving selection is still one |
| Lists.FilterKeepsDistinct | src/components/dashboard/ProfileForm.tsx:40 | filtering a list without repeats leaves a list without repeats |
| Domain.StatusName | src/pages/Dashboard.tsx:206 | the stored status string is never empty |
| ApplicationItem.OfferedTransitions | src/components/dashboard/ApplicationItem.tsx:61-99 | the card shows at most two buttons and none of them leads back to pending |
| ApplicationItem.OffersExactly | src/components/dashboard/ApplicationItem.tsx:63-99 | the buttons offer exactly pending→reviewing, pending→rejected, reviewing→accepted and reviewing→rejected |
| ApplicationItem.TerminalIffDecided | src/components/dashboard/ApplicationItem.tsx:63-99 | a status without buttons is exactly accepted or rejected |
| ApplicationItem.NoCallbackNoTransitions | src/components/dashboard/ApplicationItem.tsx:61 | without `onUpdateStatus` no button is shown, whatever the status |
| ApplicationItem.Rank | src/components/dashboard/ApplicationItem.tsx:63-99 | the workflow has three stages |
| ApplicationItem.OffersIncreaseRank | src/components/dashboard/ApplicationItem.tsx:63-99 | every offered move goes to a later stage |
| ApplicationItem.ChainRankGrows | src/components/dashboard/ApplicationItem.tsx:63-99 | along clicks on offered buttons the stage grows by at least one per click |
| ApplicationItem.ChainIsStrictlyForward | src/components/dashboard/ApplicationItem.tsx:63-99 | a sequence of clicks never returns to pending, and it passes through at most three statuses |
| ApplicationItem.DisplayName | src/components/dashboard/ApplicationItem.tsx:35 | the name shown is `full_name` when it is non-empty, otherwise 'Applicant'; it is never empty |
| Dashboard.DashboardTransitionsAgree | src/pages/Dashboard.tsx:452-488 | the dashboard's own buttons match the applicant card's table status by status |
| Dashboard.DashboardTransitions | src/pages/Dashboard.tsx:452-488 | no button re-offers the current status or pending, and there are none exactly for accepted and rejected |
| Dashboard.PatchStatus | src/pages/Dashboard.tsx:184-186 | the application with the id takes the new status; every other entry and the length are unchanged |
| Dashboard.PatchAbsentIdIsIdentity | src/pages/Dashboard.tsx:184-186 | patching an id that is not listed leaves the list as it was |
| Dashboard.PatchTwiceKeepsLast | src/pages/Dashboard.tsx:184-186 | of two patches of the same id the later one wins |
| Dashboard.FindById | src/pages/Dashboard.tsx:189 | `find` is missing exactly when no entry has the id; otherwise it is the first entry with that id |
| Dashboard.StatusNotification | src/pages/Dashboard.tsx:203-210 | the notice goes to the applicant, is unread, of type 'status', and points at the job |
| Dashboard.StatusTitleCases | src/pages/Dashboard.tsx:197-205 | the title names reviewing and accepted; rejected and any other status get the generic title |
| Dashboard.StatusTitle | src/pages/Dashboard.tsx:197-205 | the generic title is given exactly for rejected and for the fallback |
| Dashboard.StatusSentence | src/pages/Dashboard.tsx:191-206 | the accepted and rejected sentences name their outcome, and the generic sentence names the status |
| Dashboard.StatusMessage | src/pages/Dashboard.tsx:206 | the message starts with the status sentence, continues past it, and ends with a full stop |
| Dashboard.StatusMessageEndsWithPosition | src/pages/Dashboard.tsx:206 | the message is the status sentence followed by " for the position of <title>." |
| Dashboard.StatusMessageDeterminesStatus | src/pages/Dashboard.tsx:191-206 | two statuses never produce the same message for the same position |
| Dashboard.SentencesDistinct | src/pages/Dashboard.tsx:191-195 | the sentences for different statuses differ |
| Dashboard.SameSuffixCancels | src/pages/Dashboard.tsx:206 | equal messages with equal position suffixes have equal sentences |
| Dashboard.BadgeLabel | src/pages/Dashboard.tsx:229-242 | each status has a non-empty, capitalised badge label |
| Dashboard.BadgeLabelDistinguishes | src/pages/Dashboard.tsx:229-242 | different statuses get different badge labels |
| Dashboard.InitialTab | src/pages/Dashboard.tsx:19-21 | the applications tab opens exactly when the URL says `tab=applications` |
| Dashboard.ApplicationCount | src/pages/Dashboard.tsx:362 | a job's count is at most the list's length; it is zero exactly when no application is for the job, and full exactly when all are |
| Dashboard.ApplicationCountAppend | src/pages/Dashboard.tsx:362 | counting distributes over concatenation |
| Dashboard.PatchKeepsApplicationCount | src/pages/Dashboard.tsx:184-186 | a status change never changes a job's application count |
| Dashboard.DashboardPage.constructor | src/pages/Dashboard.tsx:17-21 | the page starts with no applications and the tab the URL selects |
| Dashboard.DashboardPage.JobApplicationCount | src/pages/Dashboard.tsx:362 | the count shown in a row is at most the number of applications |
| Dashboard.DashboardPage.UpdateApplicationStatus | src/pages/Dashboard.tsx:174-218 | a failed update changes nothing; a successful one patches the list and notifies the applicant of the entry found before the patch, if any |
| JobListItem.ToggleArgs | src/components/dashboard/JobListItem.tsx:53 | the toggle passes the row's id and the opposite of its current state |
| JobListItem.ToggleLabel | src/components/dashboard/JobListItem.tsx:56 | 'Deactivate' exactly for an active job, 'Activate' exactly for an inactive one |
| JobListItem.BadgeStatus | src/components/dashboard/JobListItem.tsx:34 | the badge says 'active' exactly for an active job |
| JobListItem.ViewEditArgs | src/components/dashboard/JobListItem.tsx:41-47 | View and Edit both pass the row's own id |
| JobListItem.ToggleTwiceRestores | src/components/dashboard/JobListItem.tsx:53-56 | after one toggle the next asks for the original state and the label changes |
| EmployerDashboard.CountActive | src/pages/EmployerDashboard.tsx:132 | the active count is at most the list's length and zero exactly when no job is active |
| EmployerDashboard.SetActive | src/pages/EmployerDashboard.tsx:286-288 | the job with the id takes the new flag; every other entry and the length are unchanged |
| EmployerDashboard.SetActiveKeepsUniqueIds | src/pages/EmployerDashboard.tsx:286-288 | toggling a job's flag keeps the job ids distinct |
| EmployerDashboard.SetActiveMovesCountByOne | src/pages/EmployerDashboard.tsx:286-298 | flipping one listed job to the opposite state moves the true active count by exactly the ±1 the page adds |
| EmployerDashboard.ToggleFromRowMovesCount | src/components/dashboard/JobListItem.tsx:53 | a row's toggle always moves the active count by one, in the direction it names |
| EmployerDashboard.Redirect | src/pages/EmployerDashboard.tsx:51-60 | the page stays exactly for a company user; otherwise it goes to /signin or to the job seeker's dashboard |
| EmployerDashboard.EmployerDashboardPage.constructor | src/pages/EmployerDashboard.tsx:27-40 | empty lists and all seven counters zero |
| EmployerDashboard.EmployerDashboardPage.LoadJobs | src/pages/EmployerDashboard.tsx:103-137 | without a company the list is emptied; a failed select changes nothing; otherwise the list is replaced and both job counters describe it |
| EmployerDashboard.EmployerDashboardPage.UpdateJobStatus | src/pages/EmployerDashboard.tsx:276-303 | after a successful update the job takes the flag and `activeJobs` moves by one; a failure changes nothing |
| EmployerDashboard.EmployerDashboardPage.ToggleFromRow | src/pages/EmployerDashboard.tsx:276-298 | a click on a row's toggle: a success flips that job's flag and moves `activeJobs` by one in the direction the row names, a failure changes nothing; applications are untouched and both job counters stay equal to what the list shows |
| EmployerDashboard.EmployerDashboardPage.LoadApplications | src/pages/EmployerDashboard.tsx:139-199 | a failed select changes nothing; no jobs means no applications; otherwise the reply replaces the list |
| EmployerDashboard.EmployerDashboardPage.LoadApplicationStats | src/pages/EmployerDashboard.tsx:201-274 | no company: no change; no jobs: all five counters zero; else each counter is its count reply or zero |
| EmployerDashboard.OrZero | src/pages/EmployerDashboard.tsx:265-269 | a missing count reads as zero and a present one as itself |
| EmployerDashboard.EmployerDashboardPage.UpdateApplicationStatus | src/pages/EmployerDashboard.tsx:305-352 | the same patch and notice as the combined dashboard; jobs and counters unchanged |
| EmployerDashboard.EmployerDashboardPage.GetApplicationCount | src/pages/EmployerDashboard.tsx:385-387 | the count is at most the list's length and zero exactly when no application is for the job |
| JobSeekerDashboard.AnySkillIn | src/pages/JobSeekerDashboard.tsx:277-279 | `some` is true exactly when some lower-cased skill occurs in the text |
| JobSeekerDashboard.Recommend | src/pages/JobSeekerDashboard.tsx:275-280 | at most five jobs, a prefix of the matching jobs, and exactly five when that many match |
| JobSeekerDashboard.RecommendIsMatchingSubsequence | src/pages/JobSeekerDashboard.tsx:275-280 | every recommended job mentions a skill in its text, and the fetched order is kept |
| JobSeekerDashboard.NoMatchSkippedBeforeCutoff | src/pages/JobSeekerDashboard.tsx:275-280 | a matching job preceded by fewer than five matches is recommended, at the position after them |
| JobSeekerDashboard.MatchingJobs | src/pages/JobSeekerDashboard.tsx:275-279 | exactly the jobs whose lower-cased text contains some lower-cased skill, in order and with their multiplicity |
| JobSeekerDashboard.MatchAfterEarlierMatches | src/pages/JobSeekerDashboard.tsx:275-279 | a matching job sits in the matching list right after the matches before it |
| JobSeekerDashboard.StatusCountsPartition | src/pages/JobSeekerDashboard.tsx:139-147 | the four status counts add up to the number of applications |
| JobSeekerDashboard.FilterApplications | src/pages/JobSeekerDashboard.tsx:358-360 | 'all' shows the whole list; a status shows exactly its applications, in order and with their multiplicity |
| JobSeekerDashboard.FilteredLengthIsCount | src/pages/JobSeekerDashboard.tsx:358-360 | the filtered list under a status is as long as that status's count |
| JobSeekerDashboard.CountStatus | src/pages/JobSeekerDashboard.tsx:139-147 | a status count never exceeds the list and is zero exactly when no application has that status |
| JobSeekerDashboard.WithoutBookmark | src/pages/JobSeekerDashboard.tsx:336 | the bookmarks with the id are dropped and every other entry stays as many times as it was there, in order |
| JobSeekerDashboard.WithoutListedBookmarkDropsOne | src/pages/JobSeekerDashboard.tsx:336-340 | removing a listed bookmark drops exactly one entry, matching the counter's −1 |
| JobSeekerDashboard.Redirect | src/pages/JobSeekerDashboard.tsx:47-56 | the page stays exactly for an applicant; otherwise it goes to /signin or to the employer's dashboard |
| JobSeekerDashboard.JobSeekerDashboardPage.constructor | src/pages/JobSeekerDashboard.tsx:31-39 | empty lists, filter 'all', counters zero |
| JobSeekerDashboard.JobSeekerDashboardPage.FilteredApplications | src/pages/JobSeekerDashboard.tsx:358-360 | the shown list is the whole list under 'all', else as long as the selected status's count |
| JobSeekerDashboard.JobSeekerDashboardPage.LoadApplications | src/pages/JobSeekerDashboard.tsx:96-160 | a failed select changes nothing; otherwise the list is replaced and the three counters describe it |
| JobSeekerDashboard.JobSeekerDashboardPage.LoadBookmarks | src/pages/JobSeekerDashboard.tsx:162-217 | a failed select changes nothing; otherwise the list is replaced and counted |
| JobSeekerDashboard.JobSeekerDashboardPage.LoadRecommended | src/pages/JobSeekerDashboard.tsx:219-302 | no skills: the recent jobs as fetched; skills: the first five matches; a failed select keeps the old list |
| JobSeekerDashboard.JobSeekerDashboardPage.SetStatusFilter | src/pages/JobSeekerDashboard.tsx:591-595 | the status select changes only the filter |
| JobSeekerDashboard.JobSeekerDashboardPage.RemoveBookmark | src/pages/JobSeekerDashboard.tsx:327-347 | a successful delete drops the entry and decrements the counter; a failure changes nothing |
| JobSeekerDashboard.JobSeekerDashboardPage.RemoveListedBookmark | src/pages/JobSeekerDashboard.tsx:327-347 | removing a listed bookmark: a success drops that id and lowers the counter by one, a failure changes nothing; the other lists and the filter are untouched, and the counter stays equal to the list's length |
| ProfileForm.FullNameError | src/components/dashboard/ProfileForm.tsx:72 | the full name is refused exactly when it is empty |
| ProfileForm.WithoutSkill | src/components/dashboard/ProfileForm.tsx:39-41 | every copy of the removed skill is gone and every other skill stays as many times as it was there, in order |
| ProfileForm.WithSkill | src/components/dashboard/ProfileForm.tsx:32-34 | the skill is present afterwards and is appended only when it was missing |
| ProfileForm.WithSkillKeepsDistinct | src/components/dashboard/ProfileForm.tsx:32-34 | adding never creates a duplicate |
| ProfileForm.WithoutSkillKeepsDistinct | src/components/dashboard/ProfileForm.tsx:40 | removing never creates a duplicate |
| ProfileForm.RemoveThenAddMovesToEnd | src/components/dashboard/ProfileForm.tsx:29-41 | removing a skill and adding it back moves it to the end |
| ProfileForm.WithSkillIdempotent | src/components/dashboard/ProfileForm.tsx:32-34 | adding the same skill twice is adding it once |
| ProfileForm.ApplyEdit | src/components/dashboard/ProfileForm.tsx:29-41 | a blank add changes nothing, an add appends the trimmed entry if new, a remove drops it |
| ProfileForm.EditsKeepDistinct | src/components/dashboard/ProfileForm.tsx:29-41 | no series of adds and removes introduces a duplicate skill |
| ProfileForm.ProfileFormState.constructor | src/components/dashboard/ProfileForm.tsx:16-18 | a missing initial skill list starts empty |
| ProfileForm.ProfileFormState.SetNewSkill | src/components/dashboard/ProfileForm.tsx:18 | typing changes only the pending entry |
| ProfileForm.ProfileFormState.AddSkill | src/components/dashboard/ProfileForm.tsx:29-37 | a blank entry changes nothing; otherwise the trimmed entry is added if new, the input is cleared, and no duplicate appears |
| ProfileForm.ProfileFormState.RemoveSkill | src/components/dashboard/ProfileForm.tsx:39-41 | the skill is removed and no duplicate appears |
| ProfileForm.ProfileFormState.HandleFormSubmit | src/components/dashboard/ProfileForm.tsx:43-53 | the payload is the form data plus the current skills; submitting ends false; a failure is passed on |
| JobsList.QueryPredicates | src/pages/JobsList.tsx:55-79 | the active flag always comes first, and it is the only condition exactly when the search, location, type, salary and category fields are all empty |
| JobsList.QueryHasCondition | src/pages/JobsList.tsx:61-79 | a field's condition (a `%value%` pattern, or equality for the job type) is in the query exactly when that field is non-empty |
| JobsList.StaleRefetchDiffers | src/pages/JobsList.tsx:146-148 | once a queried field is set, the refetch after a clear sends a different query from the one the cleared filters would send |
| JobsList.ExperienceAndCompanyNotQueried | src/pages/JobsList.tsx:55-79 | the experience and company fields never change the remote query |
| JobsList.CompanyFilter | src/pages/JobsList.tsx:103-108 | an empty filter keeps every job; otherwise exactly the jobs whose company name contains it, ignoring case, in order and with their multiplicity |
| JobsList.NoCompanyDropped | src/pages/JobsList.tsx:105-107 | a job without a company never survives a non-empty company filter |
| JobsList.CompanyFilterIgnoresCase | src/pages/JobsList.tsx:106 | filtering by a name or by its lower-cased form gives the same jobs, for every filter including the empty one |
| JobsList.HeadingNoun | src/pages/JobsList.tsx:442 | 'Job' exactly for one result, 'Jobs' otherwise |
| JobsList.JobsListPage.constructor | src/pages/JobsList.tsx:9-26 | the four URL parameters (missing ones empty) seed the filters; the other three start empty |
| JobsList.JobsListPage.SetFilters | src/pages/JobsList.tsx:18-24 | editing the inputs changes only the filters |
| JobsList.JobsListPage.FetchJobs | src/pages/JobsList.tsx:32-121 | a failed count changes nothing; an empty table empties the list; otherwise the query is sent and the company filter gives the list; the count stays equal to the list |
| JobsList.KeyName | src/pages/JobsList.tsx:127-130 | every URL parameter has a non-empty name |
| JobsList.SearchParamsOf | src/pages/JobsList.tsx:126-130 | each written parameter carries its own field's non-empty value, and the parameters follow the order search, location, category, company |
| JobsList.SearchParamsWritten | src/pages/JobsList.tsx:126-130 | a field's parameter, carrying its value, is written exactly when the field is non-empty |
| JobsList.JobsListPage.SearchParams | src/pages/JobsList.tsx:123-132 | the parameters are those of `SearchParamsOf`: one exactly for each non-empty search, location, category and company field, with its value, in that order |
| JobsList.JobsListPage.ClearFilters | src/pages/JobsList.tsx:139-145 | all seven filters become empty; nothing else changes |
| JobsList.JobsListPage.ClearFiltersAndRefetch | src/pages/JobsList.tsx:138-149 | the filters end empty, but the scheduled refetch sends the query of the filters as they were and filters the rows by the old company name |
| JobsList.JobsListPage.Heading | src/pages/JobsList.tsx:442 | the heading shows the count, with the singular exactly for one |
| NotificationList.MarkRead | src/pages/NotificationsPage.tsx:55-57 | the entries with the id become read, the others and the length are unchanged |
| NotificationList.MarkAllRead | src/pages/NotificationsPage.tsx:75 | every entry becomes read and nothing else changes |
| NotificationList.Delete | src/pages/NotificationsPage.tsx:94 | the entries with the id are dropped and every other entry stays as many times as it was there, in order |
| NotificationList.Prepend | src/components/NotificationBell.tsx:28 | a live insert goes first and drops nothing |
| NotificationList.HasUnread | src/pages/NotificationsPage.tsx:150 | `some(n => !n.read)` is true exactly when some entry is unread |
| NotificationList.UnreadCountZeroIffNoneUnread | src/components/NotificationBell.tsx:87 | the unread count is zero exactly when nothing is unread |
| NotificationList.UnreadCount | src/components/NotificationBell.tsx:87 | the count never exceeds the list and is zero exactly when every entry is read |
| NotificationList.UnreadCountIsFilterLength | src/components/NotificationBell.tsx:87 | the count equals the length of the list of unread entries |
| NotificationList.MarkAllReadClearsUnread | src/components/NotificationBell.tsx:146 | after marking all read the unread count is zero |
| NotificationList.MarkAllReadIdempotent | src/pages/NotificationsPage.tsx:75 | marking all read twice is marking all read once |
| NotificationList.MarkReadThenAll | src/pages/NotificationsPage.tsx:55-75 | marking one read first makes no difference to marking all read |
| NotificationList.MarkReadIdempotent | src/pages/NotificationsPage.tsx:55-57 | marking the same id read twice is marking it once |
| NotificationList.MarkReadNeverAddsUnread | src/components/NotificationBell.tsx:79-87 | marking read never increases the unread count |
| NotificationList.MarkReadOneUnread | src/components/NotificationBell.tsx:79-87 | marking the only, unread entry with an id lowers the unread count by exactly one |
| NotificationList.MarkAbsentIsIdentity | src/pages/NotificationsPage.tsx:55-57 | marking an id no entry has changes nothing |
| NotificationList.PrependCount | src/components/NotificationBell.tsx:28 | a live insert raises the unread count by one exactly when it is unread |
| NotificationList.DeleteNeverAddsUnread | src/pages/NotificationsPage.tsx:94 | deleting never increases the unread count |
| NotificationItem.IconFor | src/components/NotificationItem.tsx:12-29 | each icon is shown exactly for its type; a status notice shows check, cross or alert depending on whether its message contains 'accepted', else 'rejected' |
| NotificationItem.UnhandledKindsShowBell | src/components/NotificationItem.tsx:26-27 | the 'review' and 'system' types fall to the bell |
| NotificationItem.AcceptedTestedFirst | src/components/NotificationItem.tsx:19-22 | a message naming both outcomes shows as accepted |
| NotificationItem.AcceptanceNoticeShowsCheck | src/pages/EmployerDashboard.tsx:322-340 | the notice a dashboard sends on acceptance always shows the check icon |
| NotificationItem.ClickMarks | src/components/NotificationItem.tsx:42 | a click marks the entry read exactly when it is unread, and passes its id |
| NotificationsPage.Redirect | src/pages/NotificationsPage.tsx:16-20 | the page stays exactly for a signed-in user; otherwise it goes to /signin |
| NotificationsPage.NotificationsPageState.constructor | src/pages/NotificationsPage.tsx:13-14 | the page starts empty and loading |
| NotificationsPage.NotificationsPageState.Load | src/pages/NotificationsPage.tsx:25-43 | a missing reply becomes the empty list; a failure keeps the list; loading ends either way |
| NotificationsPage.NotificationsPageState.MarkAsRead | src/pages/NotificationsPage.tsx:45-62 | after a successful update the entries with the id are read; a failure changes nothing |
| NotificationsPage.NotificationsPageState.MarkAllAsRead | src/pages/NotificationsPage.tsx:64-82 | after a successful update nothing is unread and the button disappears |
| NotificationsPage.NotificationsPageState.DeleteNotification | src/pages/NotificationsPage.tsx:84-101 | after a successful delete the entries with the id are gone; a failure changes nothing |
| NotificationsPage.NotificationsPageState.ClearAll | src/pages/NotificationsPage.tsx:103-124 | the delete is sent exactly when confirmed; a successful one empties the list and hides the button |
| NotificationsPage.NotificationsPageState.ShowMarkAll | src/pages/NotificationsPage.tsx:150 | "Mark All as Read" shows exactly while some entry is unread |
| NotificationsPage.NotificationsPageState.ShowClearAll | src/pages/NotificationsPage.tsx:159 | "Clear All" shows exactly while the list is non-empty |
| NotificationBell.BadgeFor | src/components/NotificationBell.tsx:96-98 | no badge at zero, '9+' above nine, the number from one to nine |
| NotificationBell.NotificationBellState.constructor | src/components/NotificationBell.tsx:11 | the bell starts with no notifications |
| NotificationBell.NotificationBellState.Load | src/components/NotificationBell.tsx:51-67 | a missing reply becomes the empty list; a failure keeps the list |
| NotificationBell.NotificationBellState.OnInsert | src/components/NotificationBell.tsx:27-29 | the new row goes first, the list grows by one, and the unread count rises exactly when the row is unread |
| NotificationBell.NotificationBellState.MarkAsRead | src/components/NotificationBell.tsx:69-85 | a successful update marks the entries read; the unread count never rises |
| NotificationBell.NotificationBellState.MarkAllAsRead | src/components/NotificationBell.tsx:135-150 | after a successful update the count is zero and the badge and footer disappear |
| NotificationBell.NotificationBellState.Unread | src/components/NotificationBell.tsx:87 | the count is at most the list's length and zero exactly when everything is read |
| NotificationBell.NotificationBellState.BadgeShown | src/components/NotificationBell.tsx:96-98 | the badge is hidden exactly when everything is read |
| NotificationBell.NotificationBellState.ShowFooter | src/components/NotificationBell.tsx:132 | the footer shows exactly while some entry is unread |
| FormRules.RequiredError | src/pages/PostJob.tsx:147 | `required` refuses exactly the empty value, with its own message |
| FormRules.RequiredMinLengthError | src/pages/PostJob.tsx:254-258 | the empty value gets the required message; otherwise the value is refused exactly when shorter than the minimum, with the length message |
| JobDetail.ResumeUrlError | src/pages/JobDetail.tsx:803-809 | an empty URL is required; otherwise it is accepted exactly when it matches `^https?://.+` without regard to case |
| JobDetail.ResumePatternMatches | src/pages/JobDetail.tsx:806 | a URL the pattern accepts has at least eight characters and starts with 'http' in any case |
| JobDetail.SchemeStartsWithHttp | src/pages/JobDetail.tsx:806 | both schemes the pattern accepts begin with 'http', ignoring case |
| JobDetail.StartsWithShorter | src/pages/JobDetail.tsx:806 | starting with a prefix, ignoring case, means starting with each shorter prefix of it |
| JobDetail.ResumePatternIgnoresCase | src/pages/JobDetail.tsx:806 | a URL and its lower-cased form are judged alike |
| JobDetail.CoverLetterError | src/pages/JobDetail.tsx:830-836 | empty is refused as required; otherwise accepted exactly from 100 characters |
| JobDetail.RenderStars | src/pages/JobDetail.tsx:370-377 | five stars, star i filled exactly when i is below the rating |
| JobDetail.FilledStarsIsClampedRating | src/pages/JobDetail.tsx:370-377 | the number of filled stars is the rating clamped to 0..5 |
| JobDetail.ShowReadMore | src/pages/JobDetail.tsx:515 | the Read More button shows exactly for texts over 300 characters |
| JobDetail.ApplicationNotice | src/pages/JobDetail.tsx:277-284 | the notice goes to the company's user, is unread, of type 'application', points at the job, and shows the briefcase |
| JobDetail.JobDetailPage.constructor | src/pages/JobDetail.tsx:29-31 | not bookmarked, not applied, not applying |
| JobDetail.JobDetailPage.ToggleBookmark | src/pages/JobDetail.tsx:217-249 | nothing without a user and a job; otherwise a delete when bookmarked, an insert when not, and the flag flips only on success |
| JobDetail.JobDetailPage.OnSubmit | src/pages/JobDetail.tsx:251-296 | a pending application is inserted; `hasApplied` is set and the company notified only after a successful insert; `applying` ends false |
| PostJob.AccessView | src/pages/PostJob.tsx:88-118 | non-company users are denied; the form shows exactly for a company user with a company id |
| PostJob.RemoteNeverPosted | src/pages/PostJob.tsx:225-230 | every postable job type is searchable, but the search's 'Remote' type can never be posted |
| PostJob.FormErrors | src/pages/PostJob.tsx:147-283 | each required field is refused exactly when empty; the description is accepted exactly from 100 characters |
| PostJob.FormValidIff | src/pages/PostJob.tsx:147-283 | the form submits exactly when five fields are filled and the description has at least 100 characters |
| PostJob.PostJobPage.constructor | src/pages/PostJob.tsx:21-22 | no company id, not submitting |
| PostJob.PostJobPage.LoadCompanyId | src/pages/PostJob.tsx:25-51 | the company id is set only from a found row; an error or a missing user keeps it |
| PostJob.PostJobPage.OnSubmit | src/pages/PostJob.tsx:53-86 | without a user or company id nothing is inserted; otherwise the active job row is inserted and a success navigates to the new job |
| App.ProtectedRoute | src/App.tsx:18-32 | spinner while loading, /signin without a user, else the children |
| App.CompanyRoute | src/App.tsx:35-49 | spinner while loading; the page renders exactly for a company user; everyone else goes to the job seeker's dashboard |
| App.JobSeekerRoute | src/App.tsx:52-66 | spinner while loading; the page renders exactly for an applicant; everyone else goes to the employer's dashboard |
| App.PublicRoutesRender | src/App.tsx:73-77 | home, sign-in, sign-up, the job list and a job's page render for anyone |
| App.Decide | src/App.tsx:72-131 | every redirect goes to the home page, sign-in or one of the two dashboards, and a guarded page renders only once auth has loaded with a user |
| App.GuardedRoutesNeedLogin | src/App.tsx:78-127 | every other route shows the spinner while loading and sends a visitor without a user to /signin |
| App.PostJobByRole | src/App.tsx:78-87 | an applicant is sent to their dashboard; a company user sees the posting form |
| App.DashboardAndFallback | src/App.tsx:88-128 | /dashboard sends each role to its own dashboard; /notifications needs only a login; any other path goes home |
| App.RedirectsSettle | src/App.tsx:18-128 | once the auth state is known, a redirect target renders directly: no visitor is redirected twice |
| App.GuardsAgreeWithPages | src/App.tsx:100-127 | when the table renders a dashboard or the notifications page, that page's own mount effect does not redirect |

## Left out

- Remote store semantics: the `ilike`, `.or`, `.in`, `.order` and `.limit` conditions are evaluated by the store. Each reply is a parameter of the operation that receives it. `JobsList.QueryPredicates` describes the conditions sent but does not evaluate them.
- JobsList.JobsListPage.FetchJobs: the rows are taken as the store returns them for the sent conditions. The model does not check that they satisfy those conditions.
- NotificationBell.NotificationBellState.Load: the five-row limit is the store's; any reply is accepted.
- JobSeekerDashboard.JobSeekerDashboardPage.LoadRecommended: the `limit(5)` of the no-skills path is the store's, so only the skill path is bounded by five in the model.
- The per-row company and profile lookups are left out. These are the lookups that attach `company` to jobs and `applicant` to applications. The lists arrive already joined.
  - EmployerDashboard.EmployerDashboardPage.LoadApplications does not model the profile lookup or its tolerated 'no row' error.
  - JobSeekerDashboard.JobSeekerDashboardPage.LoadApplications and LoadBookmarks do not model the company lookups.
- Concurrency: overlapping requests and React's batched state updates are left out. Each handler is modelled as running to completion on the state it started from. The `setTimeout` refetch after clearing filters is modelled by `JobsList.JobsListPage.ClearFiltersAndRefetch`, which runs it on the filters of the render in which the button was clicked, as the closure does.
- The refetch of the application counters after a status update is a separate remote call. On the employer dashboard it is `LoadApplicationStats`.
- The auth context is left out. It covers sign-in, sign-up, sessions and the profile lookup that yields `userType`. `App.Auth` and `Domain.User` stand for its output.
- Dates, `formatDate`, relative times and the hard-coded chart data are presentation without logic and are left out.
- Rendering is left out: cards, the navigation bar, the home page and `JobCard`. The company profile form and the review form of the job page are also left out.
- `JobDetail`'s initial checks of the bookmark and application status, the similar-jobs list and share-by-link are left out. They are remote lookups or browser APIs.
- `updateProfile`/`fetchProfile` of the job seeker's dashboard are remote writes with no local logic beyond a refetch. They are left out; `ProfileForm.ProfileFormState.HandleFormSubmit` hands the payload over.
- The browser's own `type="url"` validation and react-hook-form's internal state are left out. Only the declared `required`, `minLength` and `pattern` rules are modelled.
- The browser's `confirm` dialog is the `confirmed` parameter of `NotificationsPage.NotificationsPageState.ClearAll`.
- Route matching is modelled on resolved routes: `App.Route` is the matched entry of the table. Ranking of the path patterns, and `/jobs/post` taking precedence over `/jobs/:id`, are not modelled.
- The bell's "View All" link goes to `/dashboard?tab=notifications`. That is the guarded `/dashboard` route, which redirects by role (`App.DashboardAndFallback`). The query string is not modelled further.
- Text.ToLower: only ASCII letters are lower-cased. The rest of Unicode case mapping is left out, and with it case-insensitive matching of non-ASCII company names and skills.
- JobDetail.CoverLetterError: lengths count Unicode scalar values, not UTF-16 code units, so texts with characters outside the Basic Multilingual Plane are measured shorter than the browser measures them.
- JobDetail.ShowReadMore: its length is measured in Unicode scalar values, as for `CoverLetterError`.
- PostJob.FormErrors: its length is measured in Unicode scalar values, as for `CoverLetterError`.
- JobDetail.RenderStars: the rating is an integer. A fractional rating from the store is not modelled.
- EmployerDashboard.EmployerDashboardPage.LoadJobs: a failed companies lookup and a missing company row are the same branch, `companyFound == false`. The source does not distinguish them either.
