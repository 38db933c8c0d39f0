/** The bounded error vocabulary shared by every component. */
module Errors {

  datatype ErrorCode =
    | AuthenticationFailed
    | AuthorizationFailed
    | ProviderFailure
    | HandshakeRejected
    | PrekeyConsumed
    | RecordAuthentication
    | Replay
    | StaleRatchet
    | SkipBound
    | CounterOverflow
    | Deleted
    | InvalidRepresentation
    | NonCanonicalRepresentation
    | UnknownField
    | BoundExceeded
    | InvalidTransition
    | Conflict

  datatype Stage = Representation | Validation | Commit | Provider

  datatype Error = Error(code: ErrorCode, stage: Stage, retryable: bool)

  function Terminal(code: ErrorCode, stage: Stage): Error {
    Error(code, stage, false)
  }

  function Retryable(code: ErrorCode, stage: Stage): Error {
    Error(code, stage, true)
  }

  function Invalid(code: ErrorCode): Error {
    Terminal(code, Validation)
  }

  datatype Option<+T> = None | Some(value: T)

  datatype Result<+T> = Ok(value: T) | Err(error: Error) {
    predicate IsFailure() { Err? }

    function PropagateFailure<U>(): Result<U>
      requires Err?
    {
      Err(error)
    }

    function Extract(): T
      requires Ok?
    {
      value
    }
  }
}
