/**
 * The public job search page (src/pages/JobsList.tsx): the query it sends
 * for the seven filter fields, the client-side company-name filter and result
 * count, the URL parameters written by a search, clearing the filters and
 * the pluralised heading. The remote query itself (`ilike`, `.or`, ordering)
 * is evaluated by the store; here it is only described.
 */
module JobsList {
  import opened Remote
  import opened Domain
  import Text
  import Lists

  /** The seven filter fields of the page. */
  datatype Filters = Filters(
    search: string,
    location: string,
    category: string,
    company: string,
    jobType: string,
    salary: string,
    experience: string)

  /** No filter set. */
  const NoFilters := Filters("", "", "", "", "", "", "")

  /** The job types the filter panel offers. */
  const JobTypeChoices: seq<string> := ["Full-time", "Part-time", "Contract", "Freelance", "Internship", "Remote"]

  /** One condition of the filtered `jobs` select. Patterns are `%value%`. */
  datatype QueryPredicate =
    | ActiveOnly
    | TitleOrDescriptionLike(pattern: string)
    | LocationLike(pattern: string)
    | JobTypeIs(value: string)
    | SalaryLike(pattern: string)
    | DescriptionLike(pattern: string)

  function Wildcard(s: string): string
  {
    "%" + s + "%"
  }

  /** The five filter fields that reach the remote query. */
  datatype QueriedField = SearchField | LocationField | JobTypeField | SalaryField | CategoryField

  /** The field's value in `f`. */
  function QueriedValue(f: Filters, field: QueriedField): string
  {
    match field
    case SearchField => f.search
    case LocationField => f.location
    case JobTypeField => f.jobType
    case SalaryField => f.salary
    case CategoryField => f.category
  }

  /** The condition a non-empty field adds: a `%value%` pattern, or equality for the job type. */
  function ConditionFor(f: Filters, field: QueriedField): QueryPredicate
  {
    match field
    case SearchField => TitleOrDescriptionLike(Wildcard(f.search))
    case LocationField => LocationLike(Wildcard(f.location))
    case JobTypeField => JobTypeIs(f.jobType)
    case SalaryField => SalaryLike(Wildcard(f.salary))
    case CategoryField => DescriptionLike(Wildcard(f.category))
  }

  /** `if (value) query = ...`: the field's condition, or nothing. */
  function ConditionIfSet(f: Filters, field: QueriedField): seq<QueryPredicate>
  {
    if QueriedValue(f, field) != "" then [ConditionFor(f, field)] else []
  }

  /**
   * The conditions `fetchJobs` adds, in the order it adds them: always the
   * active flag, then one per non-empty search, location, job type, salary
   * and category field. Company and experience add nothing.
   */
  function QueryPredicates(f: Filters): (q: seq<QueryPredicate>)
    ensures |q| >= 1 && q[0] == ActiveOnly
    ensures |q| == 1 <==> f.search == "" && f.location == "" && f.jobType == "" && f.salary == "" && f.category == ""
  {
    [ActiveOnly]
    + ConditionIfSet(f, SearchField)
    + ConditionIfSet(f, LocationField)
    + ConditionIfSet(f, JobTypeField)
    + ConditionIfSet(f, SalaryField)
    + ConditionIfSet(f, CategoryField)
  }

  /** A field's condition is in the query exactly when the field is non-empty. */
  lemma QueryHasCondition(f: Filters, field: QueriedField)
    ensures ConditionFor(f, field) in QueryPredicates(f) <==> QueriedValue(f, field) != ""
  {
    var c := ConditionFor(f, field);
    if QueriedValue(f, field) == "" {
      assert forall g :: g != field ==> ConditionFor(f, g) != c;
      assert c !in ConditionIfSet(f, field);
    }
  }

  /** Once any queried field is set, its query differs from the query of the
      cleared filters, so the refetch `clearFilters` schedules (which sends the
      old filters) does not show the unfiltered list. */
  lemma StaleRefetchDiffers(f: Filters, field: QueriedField)
    requires QueriedValue(f, field) != ""
    ensures QueryPredicates(f) != QueryPredicates(NoFilters)
  {
    QueryHasCondition(f, field);
    QueryHasCondition(NoFilters, field);
  }

  /** The experience field never reaches the query, and the company field only
      acts after the rows are back. */
  lemma ExperienceAndCompanyNotQueried(f: Filters, experience: string, company: string)
    ensures QueryPredicates(f.(experience := experience, company := company)) == QueryPredicates(f)
  {
  }

  /** The client-side company test: the job has a company whose lowercased
      name contains the lowercased filter. */
  function CompanyMatcher(filter: string): Job -> bool
  {
    (job: Job) => job.company.Some? && Text.Includes(Text.ToLower(job.company.value.name), Text.ToLower(filter))
  }

  /** The company-name filter applied to the joined rows. */
  function CompanyFilter(jobs: seq<Job>, filter: string): (r: seq<Job>)
    ensures filter == "" ==> r == jobs
    ensures Lists.IsSubsequence(r, jobs)
    ensures filter != "" ==> forall i :: 0 <= i < |r| ==>
      r[i].company.Some? && Text.Includes(Text.ToLower(r[i].company.value.name), Text.ToLower(filter))
    ensures filter != "" ==> forall i :: 0 <= i < |jobs| && CompanyMatcher(filter)(jobs[i]) ==> jobs[i] in r
    ensures filter != "" ==> forall j :: multiset(r)[j] == if CompanyMatcher(filter)(j) then multiset(jobs)[j] else 0
  {
    if filter == "" then
      assert Lists.IsSubsequence(jobs, jobs) by {
        Lists.FilterKeepsAll(jobs, (job: Job) => true);
      }
      jobs
    else
      var r := Lists.Filter(jobs, CompanyMatcher(filter));
      assert forall i :: 0 <= i < |r| ==> CompanyMatcher(filter)(r[i]);
      r
  }

  /** A job without a company never survives a non-empty company filter. */
  lemma NoCompanyDropped(jobs: seq<Job>, filter: string, job: Job)
    requires filter != "" && job.company.None?
    ensures job !in CompanyFilter(jobs, filter)
  {
  }

  /** The filter ignores letter case on both sides. */
  lemma CompanyFilterIgnoresCase(jobs: seq<Job>, filter: string)
    ensures CompanyFilter(jobs, Text.ToLower(filter)) == CompanyFilter(jobs, filter)
  {
    Text.ToLowerIdempotent(filter);
    assert CompanyMatcher(Text.ToLower(filter)) == CompanyMatcher(filter);
  }

  /** The keys `handleSearch` may write, in the order it appends them. */
  datatype ParamKey = SearchKey | LocationKey | CategoryKey | CompanyKey

  /** The key as it appears in the URL. */
  function KeyName(k: ParamKey): (r: string)
    ensures r != []
  {
    match k
    case SearchKey => "search"
    case LocationKey => "location"
    case CategoryKey => "category"
    case CompanyKey => "company"
  }

  /** The position of a key in the order `handleSearch` appends them. */
  function KeyRank(k: ParamKey): nat
  {
    match k
    case SearchKey => 0
    case LocationKey => 1
    case CategoryKey => 2
    case CompanyKey => 3
  }

  /** The filter field a key is written from. */
  function FieldOf(f: Filters, k: ParamKey): string
  {
    match k
    case SearchKey => f.search
    case LocationKey => f.location
    case CategoryKey => f.category
    case CompanyKey => f.company
  }

  /** `if (value) params.append(key, value)`: the pair, or nothing for an empty value. */
  function ParamIfSet(k: ParamKey, v: string): seq<(ParamKey, string)>
  {
    if v != "" then [(k, v)] else []
  }

  /** The URL parameters `handleSearch` writes for the given filters: every
      written value is its key's non-empty field, and the keys come in the
      order search, location, category, company. */
  function SearchParamsOf(f: Filters): (r: seq<(ParamKey, string)>)
    ensures forall i :: 0 <= i < |r| ==> r[i].1 == FieldOf(f, r[i].0) && r[i].1 != ""
    ensures forall i, j :: 0 <= i < j < |r| ==> KeyRank(r[i].0) < KeyRank(r[j].0)
  {
    ParamIfSet(SearchKey, f.search) + ParamIfSet(LocationKey, f.location)
    + ParamIfSet(CategoryKey, f.category) + ParamIfSet(CompanyKey, f.company)
  }

  /** Each key is written, with its field's value, exactly when that field is non-empty. */
  lemma SearchParamsWritten(f: Filters, k: ParamKey)
    ensures (k, FieldOf(f, k)) in SearchParamsOf(f) <==> FieldOf(f, k) != ""
  {
    var p := SearchParamsOf(f);
    if (k, FieldOf(f, k)) in p {
      var i :| 0 <= i < |p| && p[i] == (k, FieldOf(f, k));
    }
  }

  /** The heading's noun. */
  function HeadingNoun(totalJobs: int): (r: string)
    ensures r == "Job" <==> totalJobs == 1
    ensures r == "Jobs" <==> totalJobs != 1
  {
    if totalJobs == 1 then "Job" else "Jobs"
  }

  /** `queryParams.get(key) || ''`. */
  function ParamOrEmpty(p: Option<string>): string
  {
    if p.Some? then p.value else ""
  }

  class JobsListPage {
    var filters: Filters
    var jobs: seq<Job>
    var totalJobs: int
    var loading: bool

    /** The result count is the length of the displayed list. */
    ghost predicate CountMatches()
      reads this
    {
      totalJobs == |jobs|
    }

    /** Mounting with the URL's `search`, `location`, `category` and `company`
        parameters; the other three fields start empty. */
    constructor (search: Option<string>, location: Option<string>, category: Option<string>, company: Option<string>)
      ensures filters == NoFilters.(search := ParamOrEmpty(search), location := ParamOrEmpty(location),
        category := ParamOrEmpty(category), company := ParamOrEmpty(company))
      ensures jobs == [] && totalJobs == 0 && loading
      ensures CountMatches()
    {
      filters := NoFilters.(search := ParamOrEmpty(search), location := ParamOrEmpty(location),
        category := ParamOrEmpty(category), company := ParamOrEmpty(company));
      jobs := [];
      totalJobs := 0;
      loading := true;
    }

    /** Editing the filter inputs. */
    method SetFilters(f: Filters)
      modifies this
      ensures filters == f && jobs == old(jobs) && totalJobs == old(totalJobs) && loading == old(loading)
    {
      filters := f;
    }

    /**
     * `fetchJobs`. `count` is the reply to the head-only count of the whole
     * table (`null` is not zero); `rows` the reply to the filtered select.
     * Returns the filtered query when it is sent. A failed count or select
     * leaves the list as it was; an empty table or an empty reply empties it;
     * otherwise the company filter is applied and counted. Loading ends in
     * every case.
     */
    method FetchJobs(count: Fetch<Option<nat>>, rows: Fetch<seq<Job>>) returns (sent: Option<seq<QueryPredicate>>)
      modifies this
      ensures filters == old(filters) && !loading
      ensures count.FetchFailed? ==> sent.None? && jobs == old(jobs) && totalJobs == old(totalJobs)
      ensures count == Fetched(Some(0)) ==> sent.None? && jobs == [] && totalJobs == 0
      ensures count.Fetched? && count.rows != Some(0) ==> sent == Some(QueryPredicates(filters))
      ensures sent.Some? && rows.FetchFailed? ==> jobs == old(jobs) && totalJobs == old(totalJobs)
      ensures sent.Some? && rows.Fetched? ==>
        jobs == (if rows.rows == [] then [] else CompanyFilter(rows.rows, filters.company))
      ensures old(CountMatches()) ==> CountMatches()
    {
      loading := true;
      if count.FetchFailed? {
        loading := false;
        return None;
      }
      if count.rows == Some(0) {
        jobs := [];
        totalJobs := 0;
        loading := false;
        return None;
      }
      sent := Some(QueryPredicates(filters));
      if rows.Fetched? {
        if |rows.rows| > 0 {
          var filtered := rows.rows;
          if filters.company != "" {
            filtered := CompanyFilter(rows.rows, filters.company);
          }
          jobs := filtered;
          totalJobs := |filtered|;
        } else {
          jobs := [];
          totalJobs := 0;
        }
      }
      loading := false;
    }

    /**
     * The URL parameters `handleSearch` writes: `search`, `location`,
     * `category` and `company`, in that order, each only when non-empty. Job
     * type, salary and experience are never written.
     */
    method SearchParams() returns (params: seq<(ParamKey, string)>)
      ensures (SearchKey, filters.search) in params <==> filters.search != ""
      ensures (LocationKey, filters.location) in params <==> filters.location != ""
      ensures (CategoryKey, filters.category) in params <==> filters.category != ""
      ensures (CompanyKey, filters.company) in params <==> filters.company != ""
      ensures forall i :: 0 <= i < |params| ==> params[i].1 != ""
      ensures forall i, j :: 0 <= i < j < |params| ==> KeyRank(params[i].0) < KeyRank(params[j].0)
      ensures params == SearchParamsOf(filters)
    {
      var f := filters;
      params := [];
      params := params + ParamIfSet(SearchKey, f.search);
      params := params + ParamIfSet(LocationKey, f.location);
      params := params + ParamIfSet(CategoryKey, f.category);
      params := params + ParamIfSet(CompanyKey, f.company);
      assert params == SearchParamsOf(f);
      SearchParamsWritten(f, SearchKey);
      SearchParamsWritten(f, LocationKey);
      SearchParamsWritten(f, CategoryKey);
      SearchParamsWritten(f, CompanyKey);
    }

    /** `clearFilters` without the refetch it schedules: all seven fields become empty. */
    method ClearFilters()
      modifies this
      ensures filters == NoFilters
      ensures jobs == old(jobs) && totalJobs == old(totalJobs) && loading == old(loading)
    {
      filters := filters.(search := "");
      filters := filters.(location := "");
      filters := filters.(jobType := "");
      filters := filters.(salary := "");
      filters := filters.(category := "");
      filters := filters.(company := "");
      filters := filters.(experience := "");
    }

    /**
     * `clearFilters` with its `setTimeout` refetch. The timer runs the
     * `fetchJobs` closure of the render in which the button was clicked, and
     * that closure reads the filters as they were before the clear: the query
     * sent is the old one and the list is filtered by the old company name,
     * while the inputs show empty. The refetch reads none of the fields the
     * clear writes, so running it first leaves the same final state.
     */
    method ClearFiltersAndRefetch(count: Fetch<Option<nat>>, rows: Fetch<seq<Job>>)
      returns (sent: Option<seq<QueryPredicate>>)
      modifies this
      ensures filters == NoFilters && !loading
      ensures count.FetchFailed? ==> sent.None? && jobs == old(jobs) && totalJobs == old(totalJobs)
      ensures count == Fetched(Some(0)) ==> sent.None? && jobs == [] && totalJobs == 0
      ensures count.Fetched? && count.rows != Some(0) ==> sent == Some(QueryPredicates(old(filters)))
      ensures sent.Some? && rows.FetchFailed? ==> jobs == old(jobs) && totalJobs == old(totalJobs)
      ensures sent.Some? && rows.Fetched? ==>
        jobs == (if rows.rows == [] then [] else CompanyFilter(rows.rows, old(filters).company))
      ensures old(CountMatches()) ==> CountMatches()
    {
      sent := FetchJobs(count, rows);
      ClearFilters();
    }

    /** The heading's count and noun. */
    function Heading(): (r: (int, string))
      reads this
      ensures r.0 == totalJobs
      ensures r.1 == "Job" <==> totalJobs == 1
    {
      (totalJobs, HeadingNoun(totalJobs))
    }
  }
}
