/** The optional value used throughout for JavaScript's `undefined` and `null`. */
module Options {

  datatype Option<T> = None | Some(value: T) {

    predicate IsFailure() {
      None?
    }

    function PropagateFailure<U>(): Option<U>
      requires None?
    {
      None
    }

    function Extract(): T
      requires Some?
    {
      value
    }

    /** The nullish-coalescing operator. */
    function Or(other: Option<T>): Option<T> {
      if Some? then this else other
    }
  }
}
