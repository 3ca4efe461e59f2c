/** The DAG transactions of core/workflow_store.py, each as a function from one committed store to the next.
    A raise rolls back, so a transaction that raises answers with the store it started from. */
module WorkflowTransactions {
  import opened Prelude
  import opened WorkflowModels
  import opened AdmissionTables

  /** The `dispatch_phase` column, and the evidence key of the same name (`NoPhase` when absent). */
  datatype Phase = NoPhase | Reserved | Prepared | MayDispatch | Settled | PreflightRejected

  datatype Admission = Admission(attempt: Token, lease: Token)

  datatype Operation = Operation(
    action: Action, maxRetries: nat, state: OperationState, version: nat,
    attempt: Option<Token>, phase: Phase, attempts: nat, generation: nat,
    started: bool, externalRef: bool, evidence: Phase, retrySafe: bool, error: string,
    admission: Option<Admission>)

  datatype Lease = Lease(owner: nat, token: Token, expires: nat)

  datatype Workflow = Workflow(
    state: WorkflowState, version: nat, cancelRequested: bool, ops: seq<Operation>, deps: seq<set<nat>>,
    maxParallel: nat, currentStep: nat, lastError: string, lease: Option<Lease>)

  /** The database. `dispatches` holds the `operation_may_dispatch` rows of the event table, oldest first. */
  datatype Store = Store(
    now: nat, nextToken: Token, workflows: seq<Workflow>, requests: seq<Request>,
    permits: seq<Permit>, dispatches: seq<OpRef>)

  datatype Tx<+T> = Tx(store: Store, reply: Reply<T>)

  /** Error texts that the store itself writes. */
  const CHILD_UNRESOLVED: string := "workflow_child_ownership_unresolved"
  const OWNERSHIP_UNRESOLVED: string := "workflow has unresolved operation or resource ownership"
  const RUNTIME_ENDED: string := "runtime_ended_without_checkpoint"
  const OPERATION_FAILED: string := "workflow operation failed"

  // ----- Row access -----

  predicate HasOp(s: Store, r: OpRef) {
    r.w < |s.workflows| && r.i < |s.workflows[r.w].ops|
  }

  function Op(s: Store, r: OpRef): Operation
    requires HasOp(s, r)
  {
    s.workflows[r.w].ops[r.i]
  }

  function PutWorkflow(s: Store, w: nat, wf: Workflow): Store
    requires w < |s.workflows|
  {
    s.(workflows := s.workflows[w := wf])
  }

  function PutOp(s: Store, r: OpRef, op: Operation): Store
    requires HasOp(s, r)
  {
    PutWorkflow(s, r.w, s.workflows[r.w].(ops := s.workflows[r.w].ops[r.i := op]))
  }

  /** The definition columns are written once, with the workflow. */
  predicate Shaped(wf: Workflow) {
    |wf.deps| == |wf.ops| && forall i, d :: 0 <= i < |wf.deps| && d in wf.deps[i] ==> d < |wf.ops|
  }

  // ----- Leases -----

  /** `_require_current_lease_row`: the code it raises, if any. */
  function LeaseFault(s: Store, w: nat, token: Token): Option<ErrorCode>
    requires w < |s.workflows|
  {
    match s.workflows[w].lease
    case None => Some(LeaseTokenMismatch)
    case Some(l) => if l.token != token then Some(LeaseTokenMismatch)
                    else if l.expires <= s.now then Some(LeaseExpired) else None
  }

  function AcquireLease(s: Store, w: nat, owner: nat, ttl: nat, allowReentry: bool): (t: Tx<Token>)
  {
    if w >= |s.workflows| then Tx(s, Raised(WorkflowNotFound))
    else
      var wf := s.workflows[w];
      if wf.lease.Some? && wf.lease.value.expires > s.now then
        if wf.lease.value.owner != owner || !allowReentry then Tx(s, Raised(AlreadyClaimed))
        else Tx(s, Ok(wf.lease.value.token))
      else
        var lease := Lease(owner, s.nextToken, s.now + ttl);
        Tx(PutWorkflow(s, w, wf.(lease := Some(lease))).(nextToken := s.nextToken + 1), Ok(s.nextToken))
  }

  function RenewLease(s: Store, w: nat, token: Token, ttl: nat): (t: Tx<()>)
  {
    if w >= |s.workflows| || s.workflows[w].lease.None? then Tx(s, Raised(LeaseMissing))
    else if LeaseFault(s, w, token).Some? then Tx(s, Raised(LeaseFault(s, w, token).value))
    else
      var wf := s.workflows[w];
      Tx(PutWorkflow(s, w, wf.(lease := Some(wf.lease.value.(expires := s.now + ttl)))), Ok(()))
  }

  /** `release_lease_if_current`. */
  function ReleaseLease(s: Store, w: nat, token: Token): (t: Tx<bool>)
  {
    if w >= |s.workflows| || s.workflows[w].lease.None? || s.workflows[w].lease.value.token != token
    then Tx(s, Ok(false))
    else Tx(PutWorkflow(s, w, s.workflows[w].(lease := None)), Ok(true))
  }

  // ----- Claim, prepare, dispatch, settle -----

  function AdmissionCount(ops: seq<Operation>): nat {
    if ops == [] then 0
    else (if ops[|ops| - 1].admission.Some? then 1 else 0) + AdmissionCount(ops[..|ops| - 1])
  }

  function GlobalAdmissions(workflows: seq<Workflow>): nat {
    if workflows == [] then 0
    else AdmissionCount(workflows[|workflows| - 1].ops) + GlobalAdmissions(workflows[..|workflows| - 1])
  }

  /** `max_parallel_steps or 1`. */
  function ParallelLimit(wf: Workflow): (n: nat)
    ensures n >= 1
  {
    if wf.maxParallel == 0 then 1 else wf.maxParallel
  }

  predicate DepsDone(wf: Workflow, i: nat) {
    i < |wf.deps| && forall d :: d in wf.deps[i] ==> d < |wf.ops| && Done(wf.ops[d].state)
  }

  /** `claim_ready_operation`: admit one dependency-ready operation; answers its new attempt token. */
  function ClaimOperation(s: Store, r: OpRef, token: Token, globalLimit: nat): (t: Tx<Option<Token>>)
  {
    if globalLimit < 1 then Tx(s, Raised(InvalidAdmissionLimit))
    else if !HasOp(s, r) then Tx(s, Raised(OperationNotFound))
    else
      var wf := s.workflows[r.w];
      var op := Op(s, r);
      if wf.state != WfRunning && wf.state != WfCancelling then Tx(s, Ok(None))
      else if wf.cancelRequested || wf.state == WfCancelling then Tx(s, Ok(None))
      else if LeaseFault(s, r.w, token).Some? then Tx(s, Raised(LeaseFault(s, r.w, token).value))
      else if op.state != OpCreated && op.state != OpFailed then Tx(s, Ok(None))
      else if op.admission.Some? then Tx(s, Ok(None))
      else if !DepsDone(wf, r.i) then Tx(s, Ok(None))
      else if GlobalAdmissions(s.workflows) + 1 > globalLimit || AdmissionCount(wf.ops) + 1 > ParallelLimit(wf) then Tx(s, Ok(None))
      else
        var attempt := s.nextToken;
        var op' := op.(admission := Some(Admission(attempt, token)), attempt := Some(attempt),
                       phase := Reserved, generation := op.generation + 1, version := op.version + 1);
        Tx(PutOp(s, r, op').(nextToken := attempt + 1), Ok(Some(attempt)))
  }

  /** The checks shared by prepare, dispatch and settle: version, attempt, admission and lease fences. */
  function FenceFault(s: Store, r: OpRef, expectedVersion: nat, attempt: Token, token: Token): Option<ErrorCode>
  {
    if !HasOp(s, r) then Some(OperationNotFound)
    else if Op(s, r).version != expectedVersion || Op(s, r).attempt != Some(attempt) then Some(AttemptConflict)
    else if Op(s, r).admission != Some(Admission(attempt, token)) then Some(AttemptConflict)
    else LeaseFault(s, r.w, token)
  }

  predicate CancelWon(wf: Workflow) { wf.cancelRequested || wf.state == WfCancelling }

  function PrepareAttempt(s: Store, r: OpRef, expectedVersion: nat, attempt: Token, token: Token): (t: Tx<nat>)
  {
    var fault := FenceFault(s, r, expectedVersion, attempt, token);
    if fault.Some? then Tx(s, Raised(fault.value))
    else if CancelWon(s.workflows[r.w]) then Tx(s, Raised(CancelledBeforeDispatch))
    else
      var op := Op(s, r);
      Tx(PutOp(s, r, op.(phase := Prepared, version := op.version + 1)), Ok(op.version + 1))
  }

  /** `mark_operation_may_dispatch`: cross the durable side-effect barrier. */
  function MarkMayDispatch(s: Store, r: OpRef, expectedVersion: nat, attempt: Token, token: Token): (t: Tx<nat>)
  {
    var fault := FenceFault(s, r, expectedVersion, attempt, token);
    if fault.Some? then Tx(s, Raised(fault.value))
    else if CancelWon(s.workflows[r.w]) then Tx(s, Raised(CancelledBeforeDispatch))
    else
      var op := Op(s, r);
      var op' := op.(state := OpRunning, phase := MayDispatch, attempts := op.attempts + 1,
                     version := op.version + 1, started := true);
      Tx(PutOp(s, r, op').(dispatches := s.dispatches + [r]), Ok(op.version + 1))
  }

  /** Some request bound to this attempt is quarantined or still has a live child permit. */
  predicate OwnershipUnresolved(s: Store, r: OpRef, attempt: Token) {
    exists k :: 0 <= k < |s.requests| && s.requests[k].op == Some(r) && s.requests[k].attempt == Some(attempt)
                && (s.requests[k].state == Quarantined || HasLiveChild(s.permits, k))
  }

  /** `complete_operation_attempt`: settle operation and admission; answers the state actually recorded. */
  function CompleteAttempt(s: Store, r: OpRef, expectedVersion: nat, attempt: Token, token: Token,
                    final: OperationState, evidence: Phase, retrySafe: bool, error: string): (t: Tx<OperationState>)
  {
    var fault := FenceFault(s, r, expectedVersion, attempt, token);
    if final !in {OpSucceeded, OpFailed, OpUncertain, OpCancelled} then Tx(s, Raised(InvalidResolution))
    else if fault.Some? then Tx(s, Raised(fault.value))
    else
      var op := Op(s, r);
      if !(op.state in {OpCreated, OpFailed} && op.phase in {Reserved, Prepared} && final in {OpFailed, OpCancelled})
         && !OperationMay(op.state, final) then Tx(s, Raised(InvalidTransition))
      else
        var unresolved := OwnershipUnresolved(s, r, attempt);
        var final' := if unresolved then OpUncertain else final;
        var op' := op.(state := final', phase := Settled, version := op.version + 1, evidence := evidence,
                       retrySafe := retrySafe,
                       error := if unresolved then CHILD_UNRESOLVED else error,
                       admission := None);
        Tx(PutOp(s, r, op'), Ok(final'))
  }

  /** `fail_unadmitted_operation`: record a footprint preflight rejection before any admission exists. */
  function RejectUnadmitted(s: Store, r: OpRef, token: Token, error: string): (t: Tx<()>)
  {
    if !HasOp(s, r) then Tx(s, Raised(OperationNotFound))
    else if LeaseFault(s, r.w, token).Some? then Tx(s, Raised(LeaseFault(s, r.w, token).value))
    else
      var op := Op(s, r);
      if op.state != OpCreated || op.attempt.Some? then Tx(s, Raised(AttemptConflict))
      else if op.admission.Some? || HasUnreleasedRequest(s.requests, r) then Tx(s, Raised(AttemptConflict))
      else
        Tx(PutOp(s, r, op.(state := OpFailed, attempts := op.attempts + 1, version := op.version + 1,
                           evidence := PreflightRejected, retrySafe := false, error := error, started := true)), Ok(()))
  }

  /** `update_operation_context` and `record_route_decision` touch the row without moving its state. */
  function UpdateContext(s: Store, r: OpRef, token: Token, setsExternalRef: bool): (t: Tx<()>)
  {
    if !HasOp(s, r) then Tx(s, Raised(OperationNotFound))
    else if Op(s, r).state !in {OpRunning, OpWaiting} then Tx(s, Raised(NotActive))
    else if LeaseFault(s, r.w, token).Some? then Tx(s, Raised(LeaseFault(s, r.w, token).value))
    else
      var op := Op(s, r);
      Tx(PutOp(s, r, op.(version := op.version + 1, externalRef := op.externalRef || setsExternalRef)), Ok(()))
  }

  function RecordRoute(s: Store, r: OpRef, token: Token): (t: Tx<()>)
  {
    if !HasOp(s, r) then Tx(s, Raised(OperationNotFound))
    else if Op(s, r).state !in {OpCreated, OpFailed, OpWaiting} then Tx(s, Raised(RouteLocked))
    else if LeaseFault(s, r.w, token).Some? then Tx(s, Raised(LeaseFault(s, r.w, token).value))
    else Tx(PutOp(s, r, Op(s, r).(version := Op(s, r).version + 1)), Ok(()))
  }

  // ----- Aggregate state -----

  predicate HasUnreleasedRequest(requests: seq<Request>, r: OpRef) {
    exists k :: 0 <= k < |requests| && requests[k].op == Some(r) && requests[k].state != Released
  }

  predicate SomeOp(ops: seq<Operation>, states: set<OperationState>) {
    exists i :: 0 <= i < |ops| && ops[i].state in states
  }

  predicate HasActive(ops: seq<Operation>) {
    exists i :: 0 <= i < |ops| && ops[i].admission.Some? && ops[i].state in {OpCreated, OpRunning, OpWaiting}
  }

  predicate WorkflowHolds(requests: seq<Request>, w: nat) {
    exists k :: 0 <= k < |requests| && requests[k].op.Some? && requests[k].op.value.w == w && Held(requests[k].state)
  }

  predicate AllDone(ops: seq<Operation>) {
    forall i :: 0 <= i < |ops| ==> Done(ops[i].state)
  }

  /** The first step that has not succeeded. */
  function FirstUnfinished(ops: seq<Operation>, from: nat): (k: nat)
    requires from <= |ops|
    ensures from <= k <= |ops|
    ensures k < |ops| ==> !Done(ops[k].state)
    ensures forall i :: from <= i < k ==> Done(ops[i].state)
    decreases |ops| - from
  {
    if from == |ops| || !Done(ops[from].state) then from else FirstUnfinished(ops, from + 1)
  }

  function FirstFailure(ops: seq<Operation>, from: nat): string
    requires from <= |ops|
    decreases |ops| - from
  {
    if from == |ops| then ""
    else if ops[from].state in {OpFailed, OpUnresolvable} then
      (if ops[from].error == "" then OPERATION_FAILED else ops[from].error)
    else FirstFailure(ops, from + 1)
  }

  predicate Unresolved(s: Store, w: nat)
    requires w < |s.workflows|
  {
    SomeOp(s.workflows[w].ops, {OpUncertain, OpReconciling}) || WorkflowHolds(s.requests, w)
  }

  /** `_aggregate_state`: the workflow state that the operation, admission and request rows imply. */
  function AggregateState(s: Store, w: nat, keepRunning: bool): WorkflowState
    requires w < |s.workflows|
  {
    var ops := s.workflows[w].ops;
    var cancelled := s.workflows[w].cancelRequested || SomeOp(ops, {OpCancelled});
    if HasActive(ops) then (if cancelled then WfCancelling else WfRunning)
    else if Unresolved(s, w) then WfUncertain
    else if SomeOp(ops, {OpFailed, OpUnresolvable}) then WfFailed
    else if cancelled then WfCancelled
    else if ops != [] && AllDone(ops) then WfCompleted
    else if keepRunning then WfRunning else WfPaused
  }

  function AggregateError(s: Store, w: nat, keepRunning: bool): string
    requires w < |s.workflows|
  {
    match AggregateState(s, w, keepRunning)
    case WfUncertain => OWNERSHIP_UNRESOLVED
    case WfFailed => FirstFailure(s.workflows[w].ops, 0)
    case _ => ""
  }

  /** Write the aggregate over the workflow row. */
  function Aggregated(s: Store, w: nat, keepRunning: bool, bump: nat): Store
    requires w < |s.workflows|
  {
    var wf := s.workflows[w];
    PutWorkflow(s, w, wf.(state := AggregateState(s, w, keepRunning), version := wf.version + bump,
                          currentStep := FirstUnfinished(wf.ops, 0), lastError := AggregateError(s, w, keepRunning)))
  }

  function Recompute(s: Store, w: nat, token: Token, stopReason: string, keepRunning: bool): (t: Tx<()>)
  {
    if w >= |s.workflows| then Tx(s, Raised(WorkflowNotFound))
    else if LeaseFault(s, w, token).Some? then Tx(s, Raised(LeaseFault(s, w, token).value))
    else
      var wf := s.workflows[w];
      var error := if AggregateError(s, w, keepRunning) != "" then AggregateError(s, w, keepRunning) else stopReason;
      if AggregateState(s, w, keepRunning) == wf.state && FirstUnfinished(wf.ops, 0) == wf.currentStep
         && error == wf.lastError then Tx(s, Ok(()))
      else
        var s' := Aggregated(s, w, keepRunning, 1);
        Tx(PutWorkflow(s', w, s'.workflows[w].(lastError := error)), Ok(()))
  }

  // ----- Cancellation, transition and resume -----

  function RequestCancel(s: Store, w: nat, expectedVersion: nat): (t: Tx<()>)
  {
    if w >= |s.workflows| then Tx(s, Raised(WorkflowNotFound))
    else
      var wf := s.workflows[w];
      if wf.version != expectedVersion then Tx(s, Raised(VersionConflict))
      else if wf.state in {WfCompleted, WfCancelled, WfCancelling} then Tx(s, Ok(()))
      else
        var target := if wf.state == WfRunning then WfCancelling else WfCancelled;
        if !WorkflowMay(wf.state, target) then Tx(s, Raised(InvalidTransition))
        else Tx(PutWorkflow(s, w, wf.(state := target, cancelRequested := true, version := wf.version + 1)), Ok(()))
  }

  /** A failed effectful operation may be retried only with proof that nothing was dispatched. */
  predicate ProvenUndispatched(op: Operation) {
    op.evidence in {Reserved, Prepared, PreflightRejected} && !op.externalRef
  }

  /** `_require_safe_resume`: the code it raises, if any. */
  function ResumeFault(s: Store, w: nat): Option<ErrorCode>
    requires w < |s.workflows|
  {
    var ops := s.workflows[w].ops;
    if SomeOp(ops, {OpRunning, OpWaiting, OpUncertain, OpReconciling})
       || (exists k :: 0 <= k < |s.requests| && s.requests[k].op.Some? && s.requests[k].op.value.w == w
                       && s.requests[k].state != Released)
       || (exists i :: 0 <= i < |ops| && ops[i].admission.Some?)
    then Some(ResumeUnresolved)
    else if exists i :: 0 <= i < |ops| && ops[i].state in {OpFailed, OpUnresolvable}
                        && Effectful(ops[i].action) && !ProvenUndispatched(ops[i])
    then Some(ResumeUnsafeReplay)
    else None
  }

  function Requeued(op: Operation): Operation {
    if op.state != OpFailed then op
    else op.(state := OpCreated, version := op.version + 1, attempt := None, phase := NoPhase,
             evidence := NoPhase, retrySafe := false, error := "")
  }

  function RequeuedAll(ops: seq<Operation>): (ops': seq<Operation>)
    ensures |ops'| == |ops| && forall i :: 0 <= i < |ops| ==> ops'[i] == Requeued(ops[i])
  {
    seq(|ops|, i requires 0 <= i < |ops| => Requeued(ops[i]))
  }

  /** What a transition writes beside the state: a new current step, if any, and the last error. */
  datatype Note = Note(step: Option<nat>, error: string)

  const NO_NOTE: Note := Note(None, "")

  function Truncated(text: string): string { if |text| > 2000 then text[..2000] else text }

  /** `transition`; a move to queued is the explicit operator resume. */
  function Transition(s: Store, w: nat, expectedVersion: nat, target: WorkflowState, lease: Option<Token>, note: Note): (t: Tx<()>)
  {
    if w >= |s.workflows| then Tx(s, Raised(WorkflowNotFound))
    else
      var wf := s.workflows[w];
      if wf.version != expectedVersion then Tx(s, Raised(VersionConflict))
      else if lease.Some? && LeaseFault(s, w, lease.value).Some? then Tx(s, Raised(LeaseFault(s, w, lease.value).value))
      else if !WorkflowMay(wf.state, target) then Tx(s, Raised(InvalidTransition))
      else if target == WfQueued && ResumeFault(s, w).Some? then Tx(s, Raised(ResumeFault(s, w).value))
      else
        var ops := if target == WfQueued && wf.state in {WfFailed, WfPaused}
                   then RequeuedAll(wf.ops) else wf.ops;
        var step := if note.step.Some? then note.step.value else wf.currentStep;
        Tx(PutWorkflow(s, w, wf.(state := target, version := wf.version + 1, ops := ops, currentStep := step,
                                 lastError := Truncated(note.error))), Ok(()))
  }

  // ----- Reconciliation, acknowledgement, quarantine resolution -----

  function DropAdmission(requests: seq<Request>, r: OpRef, op: Operation): Operation {
    if HasUnreleasedRequest(requests, r) then op else op.(admission := None)
  }

  function ResolvedOp(s: Store, r: OpRef, final: OperationState): Operation
    requires HasOp(s, r)
  {
    var op := Op(s, r);
    var op' := op.(state := final, version := op.version + (if final == OpUncertain then 1 else 2),
                   evidence := NoPhase, retrySafe := false,
                   error := if final in {OpFailed, OpUnresolvable} then op.error else "");
    if final == OpUncertain then op' else DropAdmission(s.requests, r, op')
  }

  /** `resolve_uncertain_operation`; reconciliation and acknowledgement evidence carries no dispatch phase. */
  function ResolveUncertain(s: Store, r: OpRef, expectedVersion: nat, final: OperationState): (t: Tx<()>)
  {
    if final !in {OpSucceeded, OpFailed, OpUncertain, OpAcknowledged, OpUnresolvable} then Tx(s, Raised(InvalidResolution))
    else if !HasOp(s, r) then Tx(s, Raised(OperationNotFound))
    else if Op(s, r).version != expectedVersion then Tx(s, Raised(VersionConflict))
    else if Op(s, r).state != OpUncertain then Tx(s, Raised(NotUncertain))
    else if s.workflows[r.w].state != WfUncertain then Tx(s, Raised(WorkflowNotUncertain))
    else Tx(Aggregated(PutOp(s, r, ResolvedOp(s, r, final)), r.w, false, if final == OpUncertain then 1 else 2), Ok(()))
  }

  /** `resolve_quarantined_resource_request`. */
  function ResolveQuarantined(s: Store, k: nat, owner: Token): (t: Tx<()>)
  {
    if k >= |s.requests| then Tx(s, Raised(ResourceRequestNotFound))
    else if s.requests[k].owner != owner then Tx(s, Raised(ResourceOwnerMismatch))
    else if s.requests[k].state != Quarantined then Tx(s, Raised(ResourceRequestNotQuarantined))
    else if HasLiveChild(s.permits, k) then Tx(s, Raised(ResourceChildrenUnresolved))
    else
      var requests := s.requests[k := s.requests[k].(state := Released)];
      var s1 := s.(requests := requests);
      var ref := s.requests[k].op;
      if ref.None? || ref.value.w >= |s.workflows| || s.workflows[ref.value.w].state != WfUncertain then Tx(s1, Ok(()))
      else
        var w := ref.value.w;
        var wf := s.workflows[w];
        var ops := seq(|wf.ops|, i requires 0 <= i < |wf.ops| =>
          if Terminal(wf.ops[i].state) then DropAdmission(requests, OpRef(w, i), wf.ops[i]) else wf.ops[i]);
        Tx(Aggregated(PutWorkflow(s1, w, wf.(ops := ops)), w, false, 1), Ok(()))
  }

  // ----- Crash recovery -----

  predicate HasChild(s: Store, r: OpRef)
    requires HasOp(s, r)
  {
    Op(s, r).externalRef ||
    exists c :: 0 <= c < |s.permits| && s.permits[c].state != Released && s.permits[c].parent.Some?
                && s.permits[c].parent.value < |s.requests| && s.requests[s.permits[c].parent.value].op == Some(r)
  }

  /** Nothing of this operation can have started: it may simply be claimed again. */
  predicate SafeToForget(s: Store, r: OpRef)
    requires HasOp(s, r)
  {
    var op := Op(s, r);
    op.state == OpCreated && !HasChild(s, r) &&
    (op.phase in {Reserved, Prepared} || (op.phase == NoPhase && !op.started && op.attempts == 0))
  }

  function RecoveredState(s: Store, r: OpRef): OperationState
    requires HasOp(s, r)
  {
    var st := Op(s, r).state;
    if st in {OpRunning, OpWaiting, OpReconciling} || (st == OpCreated && !SafeToForget(s, r)) then OpUncertain else st
  }

  function RecoveredRequest(s: Store, w: nat, q: Request): Request
    requires w < |s.workflows|
  {
    if q.op.None? || q.op.value.w != w || !HasOp(s, q.op.value) || !(q.state in {Active, Pending}) then q
    else
      var r := q.op.value;
      var settled := SafeToForget(s, r) || (Terminal(RecoveredState(s, r)) && !HasChild(s, r));
      q.(state := if q.state == Pending || settled then Released else Quarantined)
  }

  function RecoveredRequests(s: Store, w: nat): (q: seq<Request>)
    requires w < |s.workflows|
    ensures |q| == |s.requests|
  {
    seq(|s.requests|, k requires 0 <= k < |s.requests| => RecoveredRequest(s, w, s.requests[k]))
  }

  function RecoveredOp(s: Store, r: OpRef): Operation
    requires HasOp(s, r)
  {
    var op := Op(s, r);
    var safe := SafeToForget(s, r);
    var st := RecoveredState(s, r);
    var op' := op.(state := st, version := op.version + 1, phase := if safe then NoPhase else op.phase,
                   error := if st == OpUncertain then RUNTIME_ENDED else op.error);
    if safe || Terminal(st) then DropAdmission(RecoveredRequests(s, r.w), r, op') else op'
  }

  predicate NeedsRecovery(s: Store, w: nat)
    requires w < |s.workflows|
  {
    var wf := s.workflows[w];
    wf.state in {WfRunning, WfCancelling} && (wf.lease.None? || wf.lease.value.expires <= s.now)
  }

  /** `_recover_dag_execution`, applied by `recover_interrupted` to a workflow whose lease is gone. */
  function Recover(s: Store, w: nat): Store
  {
    if w >= |s.workflows| || !NeedsRecovery(s, w) then s
    else
      var wf := s.workflows[w];
      var ops := seq(|wf.ops|, i requires 0 <= i < |wf.ops| => RecoveredOp(s, OpRef(w, i)));
      var s1 := PutWorkflow(s, w, wf.(ops := ops)).(requests := RecoveredRequests(s, w));
      var s2 := Aggregated(s1, w, false, 1);
      PutWorkflow(s2, w, s2.workflows[w].(lease := None))
  }

  // ----- Readiness (`get`) -----

  datatype Readiness = StepCompleted | StepActive | StepTerminal | BlockedDependencies | Ready | WaitingDependencies

  predicate Blocking(s: OperationState) { s in {OpFailed, OpUnresolvable, OpCancelled} }

  function ReadinessOf(wf: Workflow, i: nat): Readiness
    requires i < |wf.ops|
  {
    var st := wf.ops[i].state;
    if Done(st) then StepCompleted
    else if wf.ops[i].admission.Some? then StepActive
    else if Blocking(st) then StepTerminal
    else if st in {OpRunning, OpWaiting, OpUncertain, OpReconciling} then StepActive
    else if i < |wf.deps| && exists d :: d in wf.deps[i] && d < |wf.ops| && Blocking(wf.ops[d].state) then BlockedDependencies
    else if DepsDone(wf, i) then Ready
    else WaitingDependencies
  }

  // ----- Capabilities and child permits -----

  /** `_RESOURCE_CAPABILITY_SQL`: request k still authorises nested work for its owner. */
  predicate Capable(s: Store, k: nat, owner: Token, policy: nat) {
    && k < |s.requests|
    && s.requests[k].owner == owner && s.requests[k].state == Active && s.requests[k].policy == policy
    && (s.requests[k].op.None? ||
        var r := s.requests[k].op.value;
        && HasOp(s, r)
        && Op(s, r).admission.Some?
        && s.requests[k].attempt == Some(Op(s, r).admission.value.attempt)
        && Op(s, r).attempt == s.requests[k].attempt
        && Op(s, r).phase in {Reserved, Prepared, MayDispatch}
        && LeaseFault(s, r.w, Op(s, r).admission.value.lease).None?
        && s.workflows[r.w].state == WfRunning && !s.workflows[r.w].cancelRequested)
  }

  /** `reserve_capacity`; `parent` carries the inherited capability, if any. */
  function ReserveCapacity(s: Store, known: Option<nat>, category: string, owner: Token, weight: nat, limit: nat,
                           parent: Option<nat>, parentOwner: Token, policy: nat): (t: Tx<(nat, Verdict)>)
  {
    if weight < 1 || limit < 1 || weight > limit then Tx(s, Raised(InvalidCapacityRequest))
    else if parent.Some? && !Capable(s, parent.value, parentOwner, policy) then Tx(s, Raised(ResourceCapabilityInvalid))
    else if known.Some? && known.value >= |s.permits| then Tx(s, Raised(CapacityRequestConflict))
    else
      var g := ReservePermit(s.permits, known, category, owner, weight, limit, parent);
      match g.reply
      case Raised(e) => Tx(s, Raised(e))
      case Ok(v) => Tx(s.(permits := g.rows), Ok((g.id, v)))
  }

  /** `release_process_capacity`: permits of owners whose process tree is confirmed gone. */
  function ReleaseOwners(permits: seq<Permit>, owners: set<Token>): (p: seq<Permit>)
    ensures |p| == |permits|
  {
    seq(|permits|, c requires 0 <= c < |permits| =>
      if permits[c].owner in owners then permits[c].(state := Released) else permits[c])
  }
}
