/** Results, optional values and the error taxonomy, shared by the other modules. */
module Wrappers {

  datatype Option<+T> = None | Some(value: T)

  /** What a call that may raise gives back: a value, or the error it raised. */
  datatype Result<+T> = Success(value: T) | Failure(error: Error)

  datatype Error =
    | InvalidStateTransition
    | OptimisticLock
    | OperationNotFound
    | ArgumentMismatch
    | HandleAlreadyUsed
    | HandleInvalid
    | ApprovalRequired
    | ApprovalAlreadyDecided
    | OperationExpired
    | OperationCanceled
    | DefinitionDrift
    | PreflightFailed
    | ConcurrencyLimitReached
    | RateLimited
    | ArgumentsTooLarge
    | IdempotencyConflict
    | RetryNotApplicable
    | IntegrityViolation

  function OrElse<T>(a: Option<T>, b: Option<T>): Option<T> {
    if a.Some? then a else b
  }

  /** A subset is no larger. */
  lemma SmallerSet<T>(a: set<T>, b: set<T>)
    requires a <= b
    ensures |a| <= |b|
  {
    if a != {} {
      var x :| x in a;
      SmallerSet(a - {x}, b - {x});
    }
  }
}
