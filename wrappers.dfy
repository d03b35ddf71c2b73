/** Small failure-carrying datatypes shared by every module. */
module Wrappers {

  /** A value that may be absent (`null`/`undefined` in the application). */
  datatype Option<+T> = None | Some(value: T)

  /** The `{ success: true }` / `{ success: false, error }` shape of every handler result. */
  datatype Outcome<+E> = Pass | Fail(error: E)
}
