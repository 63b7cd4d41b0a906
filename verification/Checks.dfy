/** Results and guards shared by every model in this project. */
module Checks {

  datatype Option<+T> = None | Some(value: T)

  /** The error codes a rejected request carries. */
  datatype ErrorCode =
    | InvalidRequest | InvalidSchema | Unauthenticated | Forbidden | Conflict
    | DependencyNotReady | SequenceGap | Replay | TooLarge | UnsupportedMedia

  /** An accepted value, or the code of the first guard that failed. */
  datatype Result<+T> = Ok(value: T) | Rejected(code: ErrorCode) {
    predicate IsFailure() {
      Rejected?
    }

    function PropagateFailure<U>(): Result<U>
      requires Rejected?
    {
      Rejected(code)
    }

    function Extract(): T
      requires Ok?
    {
      value
    }
  }

  /** A check that yields nothing but its verdict. */
  type Check = Result<()>

  const PASS: Check := Ok(())

  function Need(condition: bool, code: ErrorCode := InvalidRequest): (g: Check)
    ensures g.Ok? <==> condition
  {
    if condition then PASS else Rejected(code)
  }
}
