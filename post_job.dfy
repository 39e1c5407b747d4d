/**
 * The employer's job posting page (src/pages/PostJob.tsx): who sees the
 * form, the company-id guard before the insert, the inserted row, and the
 * form's field rules.
 */
module PostJob {
  import opened Remote
  import opened Domain
  import FormRules
  import JobsList

  /** What the page renders. */
  datatype View = AccessDenied | SettingUp | JobForm

  /** Only company users see anything but the access-denied view; the form
      waits for the company id (an empty id counts as missing). */
  function AccessView(user: Option<User>, companyId: Option<string>): (v: View)
    ensures v == AccessDenied <==> user.None? || user.value.userType != CompanyType
    ensures v == JobForm <==> user.Some? && user.value.userType == CompanyType && companyId.Some? && companyId.value != ""
  {
    if user.None? || user.value.userType != CompanyType then AccessDenied
    else if companyId.None? || companyId.value == "" then SettingUp
    else JobForm
  }

  /** The form's values. */
  datatype JobFormData = JobFormData(
    title: string,
    description: string,
    location: string,
    salary_range: string,
    job_type: string,
    requirements: string)

  /** The row inserted into `jobs`. */
  datatype JobRow = JobRow(
    title: string,
    description: string,
    company_id: string,
    location: string,
    salary_range: string,
    job_type: string,
    requirements: string,
    is_active: bool)

  /** The job-type `<select>`'s values besides the empty placeholder. */
  const JobTypeOptions: seq<string> := ["Full-time", "Part-time", "Contract", "Freelance", "Internship"]

  /** Every postable type can be searched for, but the search's 'Remote' type
      can never be posted. */
  lemma RemoteNeverPosted()
    ensures forall t :: t in JobTypeOptions ==> t in JobsList.JobTypeChoices
    ensures "Remote" in JobsList.JobTypeChoices && "Remote" !in JobTypeOptions
  {
    assert JobsList.JobTypeChoices[5] == "Remote";
    assert "Remote" != "Full-time" && "Remote" != "Part-time" && "Remote" != "Contract";
    assert "Remote" != "Freelance" && "Remote" != "Internship";
  }

  /** Each field's error message, if any. */
  datatype JobFormErrors = JobFormErrors(
    title: Option<string>,
    description: Option<string>,
    location: Option<string>,
    salary_range: Option<string>,
    job_type: Option<string>,
    requirements: Option<string>)

  /** The form's declared rules: five required fields and a description that
      is required and at least 100 characters long. */
  function FormErrors(f: JobFormData): (e: JobFormErrors)
    ensures e.title.None? <==> f.title != []
    ensures e.location.None? <==> f.location != []
    ensures e.salary_range.None? <==> f.salary_range != []
    ensures e.job_type.None? <==> f.job_type != []
    ensures e.requirements.None? <==> f.requirements != []
    ensures e.description.None? <==> |f.description| >= 100
    ensures 0 < |f.description| < 100 ==> e.description == Some("Description should be at least 100 characters")
  {
    JobFormErrors(
      FormRules.RequiredError(f.title, "Job title is required"),
      FormRules.RequiredMinLengthError(f.description, 100, "Job description is required",
        "Description should be at least 100 characters"),
      FormRules.RequiredError(f.location, "Location is required"),
      FormRules.RequiredError(f.salary_range, "Salary range is required"),
      FormRules.RequiredError(f.job_type, "Job type is required"),
      FormRules.RequiredError(f.requirements, "Requirements are required"))
  }

  /** The form submits only when no field has an error. */
  predicate FormValid(f: JobFormData)
  {
    FormErrors(f) == JobFormErrors(None, None, None, None, None, None)
  }

  /** Valid exactly when the five fields are filled and the description has at
      least 100 characters: 99 are refused, 100 accepted. */
  lemma FormValidIff(f: JobFormData)
    ensures FormValid(f) <==>
      && f.title != [] && f.location != [] && f.salary_range != [] && f.job_type != []
      && f.requirements != [] && |f.description| >= 100
  {
  }

  class PostJobPage {
    var companyId: Option<string>
    var isSubmitting: bool

    constructor ()
      ensures companyId.None? && !isSubmitting
    {
      companyId := None;
      isSubmitting := false;
    }

    /** `fetchCompanyId`: the id of the user's company row, when one is found. */
    method LoadCompanyId(user: Option<User>, fetched: Fetch<Option<string>>)
      modifies this
      ensures isSubmitting == old(isSubmitting)
      ensures companyId == if user.Some? && fetched.Fetched? && fetched.rows.Some? then fetched.rows else old(companyId)
    {
      if user.None? || fetched.FetchFailed? {
        return;
      }
      if fetched.rows.Some? {
        companyId := fetched.rows;
      }
    }

    /**
     * `onSubmit`: without a user or a company id it reports an error and
     * inserts nothing. Otherwise the row is the form's six fields with the
     * company id and `is_active` set; a successful insert navigates to the new
     * job. `isSubmitting` is false afterwards either way.
     */
    method OnSubmit(user: Option<User>, data: JobFormData, inserted: Fetch<string>)
      returns (row: Option<JobRow>, nav: Navigation)
      modifies this
      ensures companyId == old(companyId)
      ensures user.None? || companyId.None? || companyId.value == "" ==>
        row.None? && nav == Stay && isSubmitting == old(isSubmitting)
      ensures user.Some? && companyId.Some? && companyId.value != "" ==>
        && row == Some(JobRow(data.title, data.description, companyId.value, data.location,
          data.salary_range, data.job_type, data.requirements, true))
        && !isSubmitting
        && nav == if inserted.Fetched? then NavigateTo("/jobs/" + inserted.rows) else Stay
    {
      if user.None? || companyId.None? || companyId.value == "" {
        return None, Stay;
      }
      isSubmitting := true;
      row := Some(JobRow(data.title, data.description, companyId.value, data.location,
        data.salary_range, data.job_type, data.requirements, true));
      nav := if inserted.Fetched? then NavigateTo("/jobs/" + inserted.rows) else Stay;
      isSubmitting := false;
    }
  }
}
