/** Failure values of the sample splitter and the Result type that carries them. */
module Errors {

  /** The fatal conditions the splitter stops on. */
  datatype SplitError =
    | InvalidProportions(total: real)   // the three percentages do not add up to 100
    | NegativeProportion                // a percentage below zero (rejected by the corrected check only)
    | MalformedRecord(line: nat)        // a registry line with fewer than two fields

  datatype Result<+T> = Ok(value: T) | Err(error: SplitError) {
    predicate IsFailure() {
      Err?
    }

    function PropagateFailure<U>(): Result<U>
      requires Err?
    {
      Err(error)
    }

    function Extract(): T
      requires Ok?
    {
      value
    }
  }
}
