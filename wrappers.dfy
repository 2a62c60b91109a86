/** Option and Outcome, the two failure-carrying shapes the model needs. */
module Wrappers {

  datatype Option<+T> = None | Some(value: T) {
    function GetOr(default: T): T {
      match this
      case Some(v) => v
      case None => default
    }
  }

  /** Pass, or Fail carrying the error a `frappe.throw` would raise. */
  datatype Outcome<+E> = Pass | Fail(error: E)
}
