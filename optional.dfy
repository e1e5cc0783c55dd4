/** An explicit "absent" result, standing for the Java `null` that a missing
    table entry produces. It is failure-compatible, so `:-` propagates it. */
module Optional {

  datatype Option<+T> = None | Some(value: T) {

    predicate IsFailure() {
      None?
    }

    function PropagateFailure<U>(): Option<U>
      requires None?
    {
      None
    }

    function Extract(): T
      requires Some?
    {
      value
    }
  }
}
