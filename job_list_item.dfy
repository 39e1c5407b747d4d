/**
 * One row of the employer's job table
 * (src/components/dashboard/JobListItem.tsx): what its buttons pass to the
 * page's callbacks and which label and badge it shows.
 */
module JobListItem {
  import opened Domain

  /** The arguments of `onToggleStatus(jobId, isActive)`. */
  datatype ToggleCall = ToggleCall(jobId: string, isActive: bool)

  /** The toggle button asks for the opposite of the job's current state. */
  function ToggleArgs(job: Job): (c: ToggleCall)
    ensures c.jobId == job.id
    ensures c.isActive <==> !job.is_active
  {
    ToggleCall(job.id, !job.is_active)
  }

  /** The toggle button's label. */
  function ToggleLabel(job: Job): (r: string)
    ensures r == "Deactivate" <==> job.is_active
    ensures r == "Activate" <==> !job.is_active
  {
    if job.is_active then "Deactivate" else "Activate"
  }

  /** The status passed to the row's badge. */
  function BadgeStatus(job: Job): (r: string)
    ensures r == "active" <==> job.is_active
    ensures r == "inactive" <==> !job.is_active
  {
    if job.is_active then "active" else "inactive"
  }

  /** The arguments of `onView` and `onEdit`. */
  datatype RowCalls = RowCalls(viewId: string, editId: string)

  /** Both the View and the Edit button pass the row's own job id. */
  function ViewEditArgs(job: Job): (c: RowCalls)
    ensures c.viewId == job.id && c.editId == job.id
  {
    RowCalls(job.id, job.id)
  }

  /** Once a toggle has been applied, the row's next toggle asks for the state
      the job had before: two clicks lead back to where they started. */
  lemma ToggleTwiceRestores(job: Job)
    ensures ToggleArgs(job.(is_active := ToggleArgs(job).isActive)).isActive == job.is_active
    ensures ToggleLabel(job.(is_active := ToggleArgs(job).isActive)) != ToggleLabel(job)
  {
  }
}
