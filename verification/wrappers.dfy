/** The optional-value type shared by every module of the model (Rust's `Option`). */
module Wrappers {

  datatype Option<+T> = None | Some(value: T) {

    /** Returns the carried value, or `default` when there is none (Rust's `unwrap_or`). */
    function GetOr(default: T): T {
      match this
      case Some(v) => v
      case None => default
    }

    // The three members below let `:-` propagate a `None`.

    predicate IsFailure() {
      None?
    }

    function PropagateFailure<U>(): Option<U>
      requires None?
    {
      None
    }

    function Extract(): T
      requires Some?
    {
      value
    }
  }
}
