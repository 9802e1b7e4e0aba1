/** A minimal optional-value type, usable with `:-` for early failure. */
module Wrappers {

  datatype Option<+T> = None | Some(value: T) {

    /** True when there is no value. */
    predicate IsFailure() {
      None?
    }

    /** Re-types a `None` so that it can be propagated by `:-`. */
    function PropagateFailure<U>(): Option<U>
      requires None?
    {
      None
    }

    /** The carried value. */
    function Extract(): T
      requires Some?
    {
      value
    }
  }
}
