/**
 * The records the pages hold, mirrored from the rows of the hosted store
 * (src/types/index.ts). Timestamps, avatars and the profile's experience and
 * education lists are not used by the modelled logic and are omitted.
 */
module Domain {
  import opened Remote

  /** The role of a signed-in user. */
  datatype UserType = ApplicantType | CompanyType

  /** The session identity the auth context exposes. */
  datatype User = User(id: string, email: string, userType: UserType)

  /** The four values of an application's `status` field. */
  datatype Status = Pending | Reviewing | Accepted | Rejected

  /** The string stored in the `status` column. */
  function StatusName(s: Status): (r: string)
    ensures r != []
  {
    match s
    case Pending => "pending"
    case Reviewing => "reviewing"
    case Accepted => "accepted"
    case Rejected => "rejected"
  }

  datatype Company = Company(id: string, user_id: string, name: string)

  /** A job posting; `company` is attached client-side and may be missing. */
  datatype Job = Job(
    id: string,
    title: string,
    description: string,
    company_id: string,
    location: string,
    salary_range: string,
    job_type: string,
    requirements: string,
    is_active: bool,
    company: Option<Company>)

  datatype Profile = Profile(user_id: string, full_name: string, skills: seq<string>)

  /** An application; the joined `job` and `applicant` rows may be missing. */
  datatype Application = Application(
    id: string,
    job_id: string,
    applicant_id: string,
    resume_url: string,
    cover_letter: string,
    status: Status,
    job: Option<Job>,
    applicant: Option<Profile>)

  datatype Bookmark = Bookmark(id: string, user_id: string, job_id: string, job: Option<Job>)

  /**
   * A notification row. `kind` is the `type` column, kept as a string: the
   * declared union lists four values, but a fifth ('review') is inserted.
   */
  datatype Notification = Notification(
    id: string,
    user_id: string,
    title: string,
    message: string,
    kind: string,
    read: bool,
    related_id: Option<string>)

  /** The row a page inserts into `notifications` (id and timestamp are assigned remotely). */
  datatype NotificationDraft = NotificationDraft(
    user_id: string,
    title: string,
    message: string,
    kind: string,
    read: bool,
    related_id: Option<string>)

  /** What a page's mount effect does: stay, or navigate elsewhere. */
  datatype Navigation = Stay | NavigateTo(path: string)

  /** Row ids are primary keys: no two entries of a fetched list share one. */
  ghost predicate UniqueJobIds(jobs: seq<Job>)
  {
    forall i, j :: 0 <= i < j < |jobs| ==> jobs[i].id != jobs[j].id
  }

  ghost predicate UniqueBookmarkIds(bookmarks: seq<Bookmark>)
  {
    forall i, j :: 0 <= i < j < |bookmarks| ==> bookmarks[i].id != bookmarks[j].id
  }
}
