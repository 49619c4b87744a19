/** Failure-compatible result for the operations the source may abort. */
module Outcomes {

  /** `Exit` stands for the source's `exit(...)` after an unrecognised
      configuration name or an unreadable configuration file: the run
      stops, nothing is returned. */
  datatype Outcome<+T> = Ok(value: T) | Exit(message: string) {

    predicate IsFailure() {
      Exit?
    }

    function PropagateFailure<U>(): Outcome<U>
      requires Exit?
    {
      Exit(message)
    }

    function Extract(): T
      requires Ok?
    {
      value
    }
  }
}
