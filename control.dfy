/** Model of lib/threadz/control.rb: the per-dispatch control object that a
    batch hands to its error handler. One Control lives across all the retries
    of one dispatched job. */
module Controls {
  import opened Wrappers

  class Control {
    /** The faults of this dispatch so far; the batch's wrapper appends to it. */
    var errors: seq<Fault>
    /** Set by `try_again`, read by the wrapper after the handler returns. */
    var retry: bool

    /** A fresh control has no errors and does not ask for a retry. */
    constructor ()
      ensures errors == [] && !retry
    {
      errors := [];
      retry := false;
    }

    /** `try_again(limit)`: asks for a retry only while fewer than `errorLimit`
        errors were recorded; otherwise the flag is left as it was. */
    method TryAgain(errorLimit: int)
      modifies this`retry
      ensures retry == (old(retry) || |errors| < errorLimit)
    {
      if |errors| < errorLimit {
        retry := true;
      }
    }

    /** `retry?`: only reads the flag. */
    method IsRetry() returns (r: bool)
      ensures r == retry
    {
      r := retry;
    }

    /** `reset_retry`. */
    method ResetRetry()
      modifies this`retry
      ensures !retry
    {
      retry := false;
    }
  }
}
