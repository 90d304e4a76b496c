/** The Python exceptions that the core raises or lets escape, and the result
    type that carries them. A call that would raise returns `Err`. */
module Faults {

  datatype Fault =
    | KeyError              // a missing dict key
    | IndexError            // a list index past the end
    | ValueError            // `int()` of text that is not a number
    | NoResultFound         // `.one()` on a query with no row
    | MultipleResultsFound  // `.one()` on a query with several rows
    | DuplicateEntry        // a primary-key clash when a row is added
    | TypeError             // a request value of the wrong JSON kind

  datatype Result<+T> = Ok(value: T) | Err(fault: Fault)
  {
    predicate IsFailure() { Err? }

    function PropagateFailure<U>(): Result<U>
      requires Err?
    {
      Err(fault)
    }

    function Extract(): T
      requires Ok?
    {
      value
    }
  }
}
