/** Python exceptions as values: an operation that may raise returns `Raised(message)`
    instead of a value. */
module Exceptions {

  datatype Result<+T> = Ok(value: T) | Raised(message: string) {
    predicate IsFailure() { Raised? }

    function PropagateFailure<U>(): Result<U>
      requires Raised?
    {
      Raised(message)
    }

    function Extract(): T
      requires Ok?
    {
      value
    }
  }
}
