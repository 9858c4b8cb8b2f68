/** Failure-carrying results for the loan engine. Each error stands for the
    Python exception the engine would raise at that point. */
module Outcomes {

  /** The exceptions the amortization engine can raise. */
  datatype Error =
    | InvalidFrequency   // ValueError('Invalid frequency')
    | DayOutOfRange      // ValueError from date.replace: the day does not exist in the month
    | YearOutOfRange     // ValueError from date.replace: year past 9999
    | DateOverflow       // OverflowError from date + timedelta
    | ZeroDivision       // ZeroDivisionError from a float division or 0.0 ** -n
    | IndexOutOfRange    // IndexError from a list index or pop on an empty list

  datatype Option<+T> = None | Some(value: T)

  datatype Result<+T> = Ok(value: T) | Err(error: Error) {
    predicate IsFailure() { Err? }

    function PropagateFailure<U>(): Result<U>
      requires Err?
    {
      Err(error)
    }

    function Extract(): T
      requires Ok?
    {
      value
    }
  }
}

/** Repayment frequencies are strings in the engine; any other string is rejected. */
module Frequency {
  const MONTHLY: string := "monthly"
  const FORTNIGHTLY: string := "fortnightly"
  const WEEKLY: string := "weekly"

  predicate Supported(frequency: string) {
    frequency == MONTHLY || frequency == FORTNIGHTLY || frequency == WEEKLY
  }
}
