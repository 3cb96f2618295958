/** Small value wrappers shared by every module of the model. */
module Wrappers {

  /** A value that may be missing: JavaScript's `undefined` or `null` where the two are not told apart. */
  datatype Option<+T> = None | Some(value: T) {
    function GetOr(default: T): T {
      match this
      case Some(v) => v
      case None => default
    }
  }

  /**
   * A payload field where "left out of the JSON body" (`undefined`) and "sent as null"
   * mean different things to the backend: the registration form drops a blank field,
   * while the profile form sends null to clear it.
   */
  datatype Nullable<+T> = Absent | Null | Present(value: T)
}
