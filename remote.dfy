/**
 * What the pages can observe of the hosted backend. Every query, insert,
 * update and delete is a foreign call; the model receives its outcome as a
 * parameter, so that "local state changes only after a successful write"
 * can be stated and proved.
 */
module Remote {

  /** A value that may be absent (`null`, `undefined` or a missing row). */
  datatype Option<+T> = None | Some(value: T)

  /** The observable outcome of an insert, update or delete. */
  datatype Write = Succeeded | Failed

  /** The observable outcome of a select: the returned rows, or an error. */
  datatype Fetch<+T> = Fetched(rows: T) | FetchFailed
}
