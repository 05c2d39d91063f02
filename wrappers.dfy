/** Failure-carrying wrappers shared by the dashboard model. */
module Wrappers {

  /** A value that may be missing: JavaScript's `undefined`, or a computation that threw. */
  datatype Option<+T> = None | Some(value: T) {
    function GetOr(default: T): T {
      match this
      case Some(v) => v
      case None => default
    }
  }

  /**
   * A fetched payload as a component sees it once the hook has settled:
   * not there yet (`Absent`), rejected by the schema check (`Invalid`),
   * or accepted (`Valid`). The schema itself is not part of this model.
   */
  datatype Payload<+T> = Absent | Invalid | Valid(value: T)
}
