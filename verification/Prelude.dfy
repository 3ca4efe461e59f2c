/** Shared vocabulary: optional columns, bytes, and the reply of a transaction. */
module Prelude {

  datatype Option<+T> = None | Some(value: T)

  /** The `ToolError` codes raised by the modelled operations. */
  datatype ErrorCode =
    | EmptyResourceClaims | ResourceRequestConflict | ResourceRequestNotFound | ResourceOwnerMismatch
    | ResourceRequestNotActive | ResourceAttemptConflict | ResourceRequestTerminal
    | ResourceRequestNotQuarantined | ResourceChildrenUnresolved | ResourceCapabilityInvalid
    | ResourceCapabilityScopeViolation
    | InvalidCapacityRequest | CapacityRequestConflict | CapacityOwnerMismatch
    | WorkflowNotFound | OperationNotFound | LeaseTokenMismatch | LeaseExpired | LeaseMissing
    | AlreadyClaimed | AttemptConflict | CancelledBeforeDispatch | InvalidTransition | InvalidResolution
    | VersionConflict | NotUncertain | WorkflowNotUncertain | NotActive | RouteLocked
    | ResumeUnresolved | ResumeUnsafeReplay | InvalidAdmissionLimit

  /** A transaction either commits and answers, or raises and rolls back. */
  datatype Reply<+T> = Ok(value: T) | Raised(code: ErrorCode)

  type Byte = x: int | 0 <= x < 256

  lemma {:induction false} Subset<T>(a: set<T>, b: set<T>)
    requires a <= b
    ensures |a| <= |b| && (|a| == |b| ==> a == b)
  {
    if a != {} {
      var x :| x in a;
      Subset(a - {x}, b - {x});
    }
  }
}
