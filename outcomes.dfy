/** Result values shared by the whole model. */
module Outcomes {

  datatype Option<T> = None | Some(value: T)

  /** The rendering of a failure. Every error the controller produces or
      receives is a non-empty string, so Python's `if error:` and
      `if error is not None:` agree on it. */
  type ErrorText = s: string | s != "" witness "error"

  /** How one step of a lifecycle handler ends.
      - Done: it finished and produced `value` (the `(None, value)` pair);
      - Failed: a control-plane call failed and its rendering is returned
        (the `(error, response)` pair);
      - Raised: the Python code would raise an exception here (a reply of an
        unexpected shape was indexed or iterated) and nothing is returned;
      - Pending: the drain wait was still polling when the model's bound on
        the number of polls ran out (the code itself would go on polling). */
  datatype Status<T> = Done(value: T) | Failed(error: ErrorText) | Raised | Pending

  /** The error a status reports, if it reports one. */
  function FailureOf<T>(s: Status<T>): Option<ErrorText>
  {
    if s.Failed? then Some(s.error) else None
  }
}
