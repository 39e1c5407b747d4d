/**
 * The job page (src/pages/JobDetail.tsx): bookmarking, applying (the
 * inserted application and the notice to the company), the application
 * form's rules, the star rating and the read-more threshold.
 */
module JobDetail {
  import opened Remote
  import opened Domain
  import Text
  import FormRules
  import NotificationItem

  // ---------------------------------------------------------------------
  // The application form's rules

  /** The characters the regular expression `.` does not match. */
  predicate IsLineTerminator(c: char)
  {
    c == '\n' || c == '\r' || c == '\U{2028}' || c == '\U{2029}'
  }

  /** `s` starts with `prefix`, ignoring the case of ASCII letters. */
  predicate StartsWithIgnoringCase(s: string, prefix: string)
  {
    |prefix| <= |s| && Text.ToLower(s[..|prefix|]) == Text.ToLower(prefix)
  }

  /** `/^https?:\/\/.+/i`: 'http://' or 'https://' in any case, then at least
      one character that is not a line terminator. */
  predicate ResumePatternMatches(url: string): (r: bool)
    ensures r ==> 8 <= |url| && StartsWithIgnoringCase(url, "http")
  {
    SchemeStartsWithHttp(url);
    || (StartsWithIgnoringCase(url, "http://") && |url| > 7 && !IsLineTerminator(url[7]))
    || (StartsWithIgnoringCase(url, "https://") && |url| > 8 && !IsLineTerminator(url[8]))
  }

  /** Starting with a prefix, ignoring case, means starting with each of its prefixes. */
  lemma StartsWithShorter(s: string, p: string, q: string)
    requires q <= p && StartsWithIgnoringCase(s, p)
    ensures StartsWithIgnoringCase(s, q)
  {
    assert Text.ToLower(s[..|q|]) == Text.ToLower(s[..|p|])[..|q|];
    assert Text.ToLower(q) == Text.ToLower(p)[..|q|];
  }

  /** Both schemes the pattern accepts start with 'http'. */
  lemma SchemeStartsWithHttp(url: string)
    ensures StartsWithIgnoringCase(url, "http://") || StartsWithIgnoringCase(url, "https://") ==>
      StartsWithIgnoringCase(url, "http")
  {
    if StartsWithIgnoringCase(url, "http://") {
      StartsWithShorter(url, "http://", "http");
    } else if StartsWithIgnoringCase(url, "https://") {
      StartsWithShorter(url, "https://", "http");
    }
  }

  /** The resume URL's rules: required, then the pattern. */
  function ResumeUrlError(url: string): (r: Option<string>)
    ensures url == [] ==> r == Some("Resume URL is required")
    ensures url != [] ==> (r.None? <==> ResumePatternMatches(url))
    ensures url != [] && r.Some? ==> r.value == "Please enter a valid URL"
  {
    if FormRules.RequiredError(url, "Resume URL is required").Some? then Some("Resume URL is required")
    else if !ResumePatternMatches(url) then Some("Please enter a valid URL")
    else None
  }

  /** The pattern ignores case: a URL and its lowercase form are judged alike. */
  lemma ResumePatternIgnoresCase(url: string)
    ensures ResumePatternMatches(Text.ToLower(url)) <==> ResumePatternMatches(url)
  {
    var low := Text.ToLower(url);
    Text.ToLowerIdempotent(url);
    forall n | 0 <= n <= |url|
      ensures Text.ToLower(low[..n]) == Text.ToLower(url[..n])
    {
      assert Text.ToLower(low[..n]) == Text.ToLower(Text.ToLower(url[..n])) by {
        assert low[..n] == Text.ToLower(url[..n]);
      }
      Text.ToLowerIdempotent(url[..n]);
    }
    if |url| > 8 {
      assert low[8] == Text.LowerChar(url[8]);
    }
    if |url| > 7 {
      assert low[7] == Text.LowerChar(url[7]);
    }
  }

  /** The cover letter's rules: required, then at least 100 characters. */
  function CoverLetterError(text: string): (r: Option<string>)
    ensures text == [] ==> r == Some("Cover letter is required")
    ensures text != [] ==> (r.None? <==> |text| >= 100)
    ensures 0 < |text| < 100 ==> r == Some("Cover letter should be at least 100 characters")
  {
    FormRules.RequiredMinLengthError(text, 100, "Cover letter is required",
      "Cover letter should be at least 100 characters")
  }

  // ---------------------------------------------------------------------
  // Presentation rules with content

  /** `renderStars(rating)`: five stars, star `i` filled when `i < rating`. */
  function RenderStars(rating: int): (stars: seq<bool>)
    ensures |stars| == 5
    ensures forall i :: 0 <= i < 5 ==> (stars[i] <==> i < rating)
  {
    seq(5, i requires 0 <= i < 5 => i < rating)
  }

  function CountFilled(stars: seq<bool>): nat
  {
    if stars == [] then 0 else (if stars[0] then 1 else 0) + CountFilled(stars[1..])
  }

  /** The number of filled stars is the rating clamped to 0..5. */
  lemma FilledStarsIsClampedRating(rating: int)
    ensures CountFilled(RenderStars(rating)) == if rating < 0 then 0 else if rating > 5 then 5 else rating
  {
    var s := RenderStars(rating);
    assert s[4..][1..] == [];
    assert CountFilled(s[4..]) == (if s[4] then 1 else 0);
    assert s[3..][1..] == s[4..];
    assert CountFilled(s[3..]) == (if s[3] then 1 else 0) + CountFilled(s[4..]);
    assert s[2..][1..] == s[3..];
    assert CountFilled(s[2..]) == (if s[2] then 1 else 0) + CountFilled(s[3..]);
    assert s[1..][1..] == s[2..];
    assert CountFilled(s[1..]) == (if s[1] then 1 else 0) + CountFilled(s[2..]);
  }

  /** The Read More / Show Less button appears for texts over 300 characters. */
  function ShowReadMore(text: string): (r: bool)
    ensures r <==> |text| > 300
  {
    |text| > 300
  }

  // ---------------------------------------------------------------------
  // The page state

  /** The bookmark write `toggleBookmark` sends. */
  datatype BookmarkWrite = RemoveBookmark(jobId: string, userId: string) | AddBookmark(jobId: string, userId: string)

  /** The application form's values. */
  datatype ApplicationForm = ApplicationForm(resumeUrl: string, coverLetter: string)

  /** The row inserted into `applications`. */
  datatype ApplicationRow = ApplicationRow(
    job_id: string,
    applicant_id: string,
    resume_url: string,
    cover_letter: string,
    status: Status)

  /** The notice sent to the company's user when someone applies. */
  function ApplicationNotice(companyUserId: string, job: Job): (n: NotificationDraft)
    ensures n.user_id == companyUserId && n.kind == "application" && !n.read
    ensures n.related_id == Some(job.id) && n.title == "New Job Application"
    ensures NotificationItem.IconFor(n.kind, n.message) == NotificationItem.BriefcaseIcon
  {
    NotificationDraft(companyUserId, "New Job Application",
      "Someone has applied for the " + job.title + " position.", "application", false, Some(job.id))
  }

  class JobDetailPage {
    var isBookmarked: bool
    var hasApplied: bool
    var applying: bool

    constructor ()
      ensures !isBookmarked && !hasApplied && !applying
    {
      isBookmarked := false;
      hasApplied := false;
      applying := false;
    }

    /**
     * `toggleBookmark`: nothing without a user and a loaded job; otherwise a
     * delete when bookmarked, an insert when not, and the flag flips only
     * once the write succeeds.
     */
    method ToggleBookmark(user: Option<User>, job: Option<Job>, write: Write) returns (sent: Option<BookmarkWrite>)
      modifies this
      ensures hasApplied == old(hasApplied) && applying == old(applying)
      ensures user.None? || job.None? ==> sent.None? && isBookmarked == old(isBookmarked)
      ensures user.Some? && job.Some? ==> sent == Some(
        if old(isBookmarked) then RemoveBookmark(job.value.id, user.value.id)
        else AddBookmark(job.value.id, user.value.id))
      ensures user.Some? && job.Some? && write.Succeeded? ==> isBookmarked == !old(isBookmarked)
      ensures write.Failed? ==> isBookmarked == old(isBookmarked)
    {
      if user.None? || job.None? {
        return None;
      }
      if isBookmarked {
        sent := Some(RemoveBookmark(job.value.id, user.value.id));
        if write.Succeeded? {
          isBookmarked := false;
        }
      } else {
        sent := Some(AddBookmark(job.value.id, user.value.id));
        if write.Succeeded? {
          isBookmarked := true;
        }
      }
    }

    /**
     * `onSubmit`: nothing without a user and a loaded job. Otherwise the
     * application is inserted as pending; only after the insert succeeds is
     * `hasApplied` set and, when the job has a company whose owner was found,
     * the company notified. `applying` is false at the end in every case.
     */
    method OnSubmit(user: Option<User>, job: Option<Job>, form: ApplicationForm, insert: Write,
                    companyUserId: Option<string>)
      returns (row: Option<ApplicationRow>, notice: Option<NotificationDraft>)
      modifies this
      ensures isBookmarked == old(isBookmarked)
      ensures user.None? || job.None? ==>
        row.None? && notice.None? && hasApplied == old(hasApplied) && applying == old(applying)
      ensures user.Some? && job.Some? ==> !applying && row == Some(ApplicationRow(job.value.id,
        user.value.id, form.resumeUrl, form.coverLetter, Pending))
      ensures user.Some? && job.Some? ==> (hasApplied <==> old(hasApplied) || insert.Succeeded?)
      ensures notice.Some? <==> (user.Some? && job.Some? && insert.Succeeded? && job.value.company.Some?
        && companyUserId.Some? && companyUserId.value != "")
      ensures notice.Some? ==> notice.value == ApplicationNotice(companyUserId.value, job.value)
    {
      if user.None? || job.None? {
        return None, None;
      }
      applying := true;
      row := Some(ApplicationRow(job.value.id, user.value.id, form.resumeUrl, form.coverLetter, Pending));
      notice := None;
      if insert.Succeeded? {
        if job.value.company.Some? && companyUserId.Some? && companyUserId.value != "" {
          notice := Some(ApplicationNotice(companyUserId.value, job.value));
        }
        hasApplied := true;
      }
      applying := false;
    }
  }
}
