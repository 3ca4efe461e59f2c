/** Lifecycle states, transition tables and action descriptors (core/workflow_models.py, core/workflow_actions.py). */
module WorkflowModels {

  datatype WorkflowState =
    | WfCreated | WfQueued | WfRunning | WfCancelling | WfWaiting | WfPaused
    | WfFailed | WfUncertain | WfReconciling | WfCompleted | WfCancelled

  datatype OperationState =
    | OpCreated | OpRunning | OpWaiting | OpSucceeded | OpFailed | OpUncertain
    | OpReconciling | OpAcknowledged | OpUnresolvable | OpCancelled

  predicate WorkflowMay(from: WorkflowState, to: WorkflowState) {
    match from
    case WfCreated => to in {WfQueued, WfCancelled}
    case WfQueued => to in {WfRunning, WfCancelled}
    case WfRunning => to in {WfWaiting, WfCancelling, WfPaused, WfFailed, WfUncertain, WfCompleted, WfCancelled}
    case WfCancelling => to in {WfCancelled, WfFailed, WfUncertain}
    case WfWaiting => to in {WfRunning, WfPaused, WfFailed, WfUncertain, WfCancelled}
    case WfPaused => to in {WfQueued, WfCancelled}
    case WfFailed => to in {WfQueued, WfCancelled}
    case WfUncertain => to in {WfReconciling, WfCancelled}
    case WfReconciling => to in {WfPaused, WfFailed, WfUncertain, WfCompleted, WfCancelled}
    case WfCompleted => false
    case WfCancelled => false
  }

  predicate OperationMay(from: OperationState, to: OperationState) {
    match from
    case OpCreated => to in {OpRunning, OpCancelled}
    case OpRunning => to in {OpWaiting, OpSucceeded, OpFailed, OpUncertain, OpCancelled}
    case OpWaiting => to in {OpRunning, OpSucceeded, OpFailed, OpUncertain, OpCancelled}
    case OpUncertain => to in {OpReconciling, OpAcknowledged, OpUnresolvable, OpCancelled}
    case OpReconciling => to in {OpSucceeded, OpFailed, OpUncertain, OpAcknowledged, OpUnresolvable}
    case OpFailed => to in {OpRunning, OpCancelled}
    case OpSucceeded => false
    case OpAcknowledged => false
    case OpUnresolvable => false
    case OpCancelled => false
  }

  datatype Action =
    | ApplyPatch | AffectedTests | VerifyChanges | GitStatus | GitStage | GitCommit
    | RunDurableJob | CheckFile | CheckHttp | DesktopSemanticAction | BrowserAction

  predicate Mutates(a: Action) {
    a in {ApplyPatch, GitStage, GitCommit, RunDurableJob, DesktopSemanticAction, BrowserAction}
  }

  predicate RetriesTransients(a: Action) { a in {GitStatus, CheckHttp} }

  /** Actions whose effect must never be replayed. */
  predicate Effectful(a: Action) { Mutates(a) || a == VerifyChanges }

  predicate Done(s: OperationState) { s in {OpSucceeded, OpAcknowledged} }

  /** States that no longer hold an execution. */
  predicate Terminal(s: OperationState) {
    s in {OpSucceeded, OpAcknowledged, OpFailed, OpUnresolvable, OpCancelled}
  }
}
