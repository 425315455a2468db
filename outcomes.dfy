/** Option, the summarizer's error outcomes, and a failure-compatible Result. */
module Outcomes {

  /** Python's `Optional[float]`: `None` or a value. */
  datatype Option<+T> = None | Some(value: T)

  /** Every way the summarizer fails. In the source each is an uncaught exception. */
  datatype Error =
    | MissingKey(key: string)         // KeyError: a decoded line lacks `key`
    | UnknownUnit(unit: string)       // KeyError: `unit` is not in UNITS or TIME_UNITS
    | NonNumericPrefix(text: string)  // ValueError: float() rejects `text`
    | TooShort(text: string)          // IndexError: to_usec reads before the start of `text`
    | EmptyAggregate                  // StatisticsError: mean() of no values
  {
    /** An error raised while reading one line, as opposed to the mean's own. */
    predicate LineError() {
      !EmptyAggregate?
    }
  }

  /** A value, or the error that aborts the run; usable with `:-`. */
  datatype Result<+T> = Ok(value: T) | Err(error: Error) {
    predicate IsFailure() {
      Err?
    }

    function PropagateFailure<U>(): Result<U>
      requires Err?
    {
      Err(error)
    }

    function Extract(): T
      requires Ok?
    {
      value
    }
  }
}
