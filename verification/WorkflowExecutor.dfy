/** `_run_dag_attempt` of core/workflow_executor.py against the store object: the ordered calls of one attempt, with what
    the action and the stop signal do given by the caller. Interleaved attempts are the subject of WorkflowSystem. */
module WorkflowExecutor {
  import opened Prelude
  import opened WorkflowModels
  import opened AdmissionTables
  import opened WorkflowTransactions
  import opened WorkflowSystem
  import opened StoreContracts
  import opened WorkflowStore

  /** What happens around the calls of an attempt: interruptions, the time that passes before the dispatch and before the
      settlement, and how the action ends; no ending means that the lease was lost. */
  datatype Script = Script(
    beforePrepare: Option<Ending>, beforeDispatch: Option<Ending>, preparing: nat, acting: nat,
    action: Option<Ending>, externalRef: bool, error: string)

  ghost predicate Plausible(x: Script) { x.beforePrepare != Some(Returned) && x.beforeDispatch != Some(Returned) }

  // ----- When an attempt gets through -----

  /** The attempt owns the row as it is now. */
  ghost predicate OwnsNow(s: Store, r: OpRef, attempt: Token, lease: Token) {
    HasOp(s, r) && Owns(s, r, Op(s, r).version, attempt, lease)
  }

  function After(s: Store, elapsed: nat): Store { s.(now := s.now + elapsed) }

  /** Nothing interrupts the attempt, it owns its row, no cancel came first, and its lease lasts until the dispatch. */
  ghost predicate LetThrough(s: Store, r: OpRef, attempt: Token, lease: Token, x: Script) {
    && x.beforePrepare.None? && x.beforeDispatch.None?
    && OwnsNow(s, r, attempt, lease) && !CancelWon(s.workflows[r.w]) && LeaseLive(After(s, x.preparing), r.w, lease)
  }

  /** The request is the caller's and can still be settled for this outcome. */
  ghost predicate RequestReady(s: Store, request: nat, owner: Token, final: OperationState) {
    request < |s.requests| && s.requests[request].owner == owner && (final == OpUncertain ==> s.requests[request].state != Released)
  }

  /** What is recorded when the attempt asks for `final`. */
  ghost function Recorded(s: Store, r: OpRef, attempt: Token, final: OperationState): OperationState {
    if OwnershipSettled(s, r, attempt) then final else OpUncertain
  }

  // ----- What an attempt may touch -----

  /** Nothing but row r, its request, the dispatch log and the clock may differ. */
  ghost predicate Confined(s: Store, s': Store, r: OpRef, request: nat) {
    && OnlyRow(s, s'.(requests := s.requests, dispatches := s.dispatches, now := s.now), r)
    && HasOp(s', r) && Op(s', r).action == Op(s, r).action
    && |s'.requests| == |s.requests|
    && forall j :: 0 <= j < |s.requests| && j != request ==> s'.requests[j] == s.requests[j]
  }

  lemma ConfinedTransitive(a: Store, b: Store, c: Store, r: OpRef, request: nat)
    requires Confined(a, b, r, request) && Confined(b, c, r, request)
    ensures Confined(a, c, r, request)
  {
    forall q | HasOp(a, q) && q != r ensures Op(c, q) == Op(a, q) { assert HasOp(b, q) && Op(b, q) == Op(a, q); }
  }

  /** Row, log and clock moved; requests and permits are the same, so is what is settled below the attempt. */
  lemma SameOwnership(s: Store, s': Store, r: OpRef, attempt: Token)
    requires s'.requests == s.requests && s'.permits == s.permits
    ensures OwnershipSettled(s', r, attempt) <==> OwnershipSettled(s, r, attempt)
  {
    forall k ensures ChildrenReleased(s', k) <==> ChildrenReleased(s, k) { }
  }

  // ----- Up to the end of the action -----

  /** How far an attempt got: whether it was let through and how it ended. */
  datatype Reached = Reached(crossed: bool, ending: Option<Ending>)

  /** Everything up to the end of the action. The effect is let through exactly when nothing stands in its way, and the
      thread knows it; from then on it owns its row for as long as its lease lasts. */
  method Act(db: Database, r: OpRef, attempt: Token, lease: Token, request: nat, x: Script) returns (a: Reached)
    requires db.Valid() && HasOp(db.View(), r) && Uncrossed(db.View(), r) && Plausible(x)
    modifies db`workflows, db`dispatches, db`now
    ensures db.Valid() && Confined(old(db.View()), db.View(), r, request) && db.requests == old(db.requests)
    ensures a.crossed <==> LetThrough(old(db.View()), r, attempt, lease, x)
    ensures db.dispatches == if a.crossed then old(db.dispatches) + [r] else old(db.dispatches)
    ensures a.crossed || Uncrossed(db.View(), r)
    ensures a.crossed ==> a.ending == x.action && Op(db.View(), r).state == OpRunning
    ensures a.crossed ==>
              (OwnsNow(db.View(), r, attempt, lease) <==> LeaseLive(After(old(db.View()), x.preparing + x.acting), r.w, lease))
    ensures !a.crossed ==> a.ending.Some? && a.ending != Some(Returned)
  {
    if x.beforePrepare.Some? { return Reached(false, x.beforePrepare); }
    var prepared := db.PrepareOperationAttempt(r, db.workflows[r.w].ops[r.i].version, attempt, lease);
    if prepared.Raised? { return Reached(false, Some(Stopped(prepared.code))); }
    db.PassTime(x.preparing);
    if x.beforeDispatch.Some? { return Reached(false, x.beforeDispatch); }
    ghost var s1 := db.View();
    a := Dispatch(db, r, prepared.value, attempt, lease, request, x);
    ConfinedTransitive(old(db.View()), s1, db.View(), r, request);
  }

  /** The barrier and the action behind it. */
  method Dispatch(db: Database, r: OpRef, version: nat, attempt: Token, lease: Token, request: nat, x: Script) returns (a: Reached)
    requires db.Valid() && HasOp(db.View(), r) && Uncrossed(db.View(), r)
    modifies db`workflows, db`dispatches, db`now
    ensures db.Valid() && Confined(old(db.View()), db.View(), r, request) && db.requests == old(db.requests)
    ensures a.crossed <==> Owns(old(db.View()), r, version, attempt, lease) && !CancelWon(old(db.workflows)[r.w])
    ensures db.dispatches == if a.crossed then old(db.dispatches) + [r] else old(db.dispatches)
    ensures a.crossed || Uncrossed(db.View(), r)
    ensures a.crossed ==> a.ending == x.action && Op(db.View(), r).state == OpRunning
    ensures a.crossed ==> (OwnsNow(db.View(), r, attempt, lease) <==> LeaseLive(After(old(db.View()), x.acting), r.w, lease))
    ensures !a.crossed ==> a.ending.Some? && a.ending != Some(Returned)
  {
    var dispatched := db.MarkOperationMayDispatch(r, version, attempt, lease);
    if dispatched.Raised? { return Reached(false, Some(Stopped(dispatched.code))); }
    db.PassTime(x.acting);
    if x.externalRef {
      ghost var s1 := db.View();
      var saved := db.UpdateOperationContext(r, lease, true);
      ConfinedTransitive(old(db.View()), s1, db.View(), r, request);
    }
    return Reached(true, x.action);
  }

  // ----- Settlement -----

  /** `settle_resource`: quarantine after an uncertain outcome, release otherwise. It succeeds exactly when the request is
      the caller's and can still be settled. */
  method SettleResource(db: Database, request: nat, owner: Token, final: OperationState) returns (reply: Reply<()>)
    requires db.Valid() && (request < |db.requests| ==> db.requests[request].state != Pending)
    modifies db`requests
    ensures db.Valid() && |db.requests| == |old(db.requests)|
    ensures reply.Ok? <==> RequestReady(old(db.View()), request, owner, final)
    ensures forall j :: 0 <= j < |db.requests| && j != request ==> db.requests[j] == old(db.requests)[j]
    ensures request < |db.requests| ==> db.requests[request].state != Pending
    ensures reply.Ok? && final == OpUncertain ==> db.requests[request].state == Quarantined
    ensures reply.Ok? ==> db.requests[request].state in {Released, Quarantined}
  {
    if final == OpUncertain {
      reply := db.QuarantineResourceRequest(request, owner);
      return;
    }
    var released := db.ReleaseResourceRequest(request, owner);
    if released.Raised? { return Raised(released.code); }
    if released.value { return Ok(()); }
    if request >= |db.requests| { return Raised(ResourceRequestNotFound); }
    // An admitted request that was not released is released or quarantined already, so the last check never fails.
    assert db.requests[request].state in {Released, Quarantined};
    return Ok(());
  }

  /** The operation is settled in this state and its request is given back, or held back for an uncertain outcome. */
  ghost predicate Closed(s: Store, r: OpRef, request: nat, final: OperationState) {
    && HasOp(s, r) && Op(s, r).state == final && Op(s, r).admission.None?
    && request < |s.requests| && s.requests[request].state in {Released, Quarantined}
    && (final == OpUncertain ==> s.requests[request].state == Quarantined)
  }

  /** Settle the row alone: it succeeds exactly for its owner and a recordable state, and no request moves. */
  method SettleRow(db: Database, r: OpRef, attempt: Token, lease: Token, final: OperationState, evidence: Phase,
                   retrySafe: bool, error: string, ghost request: nat)
    returns (reply: Reply<OperationState>)
    requires db.Valid() && HasOp(db.View(), r) && HonestEvidence(db.View(), r, final, evidence)
    modifies db`workflows
    ensures db.Valid() && Confined(old(db.View()), db.View(), r, request)
    ensures reply.Ok? <==> OwnsNow(old(db.View()), r, attempt, lease) && Recordable(Op(old(db.View()), r), final)
    ensures reply.Ok? ==>
              && reply.value == Recorded(old(db.View()), r, attempt, final)
              && Op(db.View(), r).state == reply.value && Op(db.View(), r).admission.None?
  {
    var version := db.workflows[r.w].ops[r.i].version;
    reply := db.CompleteOperationAttempt(r, version, attempt, lease, final, evidence, retrySafe, error);
  }

  /** Settle the row, then its resource: it succeeds exactly for the owner of the row, a recordable state and a request
      that is ready for what is recorded. */
  method Settle(db: Database, r: OpRef, attempt: Token, lease: Token, request: nat, owner: Token,
                final: OperationState, evidence: Phase, retrySafe: bool, error: string)
    returns (reply: Reply<OperationState>)
    requires db.Valid() && HasOp(db.View(), r) && HonestEvidence(db.View(), r, final, evidence)
    requires request < |db.requests| ==> db.requests[request].state != Pending
    modifies db`workflows, db`requests
    ensures db.Valid() && Confined(old(db.View()), db.View(), r, request)
    ensures request < |db.requests| ==> db.requests[request].state != Pending
    ensures reply.Ok? <==>
              && OwnsNow(old(db.View()), r, attempt, lease) && Recordable(Op(old(db.View()), r), final)
              && RequestReady(old(db.View()), request, owner, Recorded(old(db.View()), r, attempt, final))
    ensures reply.Ok? ==>
              reply.value == Recorded(old(db.View()), r, attempt, final) && Closed(db.View(), r, request, reply.value)
  {
    reply := SettleRow(db, r, attempt, lease, final, evidence, retrySafe, error, request);
    if reply.Raised? { return; }
    ghost var s1 := db.View();
    var freed := SettleResource(db, request, owner, reply.value);
    ConfinedTransitive(old(db.View()), s1, db.View(), r, request);
    if freed.Raised? { reply := Raised(freed.code); }
  }

  /** An attempt that ended other than by returning: classify it, settle it, and quarantine its request when the attempt
      turns out to have lost its row. */
  method SettleFailure(db: Database, r: OpRef, attempt: Token, lease: Token, request: nat, owner: Token,
                       ending: Ending, crossed: bool, error: string)
    returns (reply: Reply<OperationState>)
    requires db.Valid() && HasOp(db.View(), r) && ending != Returned && (crossed || Uncrossed(db.View(), r))
    requires request < |db.requests| ==> db.requests[request].state != Pending
    modifies db`workflows, db`requests
    ensures db.Valid() && Confined(old(db.View()), db.View(), r, request)
    ensures var s := old(db.View());
            var final := Classify(ending, Effectful(Op(s, r).action), crossed);
            && (reply.Ok? <==>
                  && OwnsNow(s, r, attempt, lease) && Recordable(Op(s, r), final)
                  && RequestReady(s, request, owner, Recorded(s, r, attempt, final)))
            && (reply.Ok? ==> reply.value == Recorded(s, r, attempt, final) && Closed(db.View(), r, request, reply.value))
    ensures reply.Ok? && crossed && Effectful(Op(db.View(), r).action) ==> reply.value == OpUncertain
    ensures reply.Ok? ==> reply.value != OpSucceeded
  {
    var op := db.workflows[r.w].ops[r.i];
    var final := Classify(ending, Effectful(op.action), crossed);
    var evidence := if crossed then MayDispatch else if op.phase == NoPhase then Reserved else op.phase;
    var retrySafe := ending == TransientFault && !Effectful(op.action) && RetriesTransients(op.action);
    reply := Settle(db, r, attempt, lease, request, owner, final, evidence, retrySafe, error);
    if reply.Raised? && reply.code in {LeaseExpired, LeaseTokenMismatch, AttemptConflict} {
      ghost var s1 := db.View();
      var quarantined := db.QuarantineResourceRequest(request, owner);
      ConfinedTransitive(old(db.View()), s1, db.View(), r, request);
    }
  }

  /** How an attempt that came back is settled: as succeeded when its action returned and that can be recorded, and as a
      failure otherwise. */
  method Conclude(db: Database, r: OpRef, attempt: Token, lease: Token, request: nat, owner: Token,
                  ending: Ending, crossed: bool, error: string)
    returns (reply: Reply<OperationState>)
    requires db.Valid() && HasOp(db.View(), r) && (crossed || (ending != Returned && Uncrossed(db.View(), r)))
    requires request < |db.requests| ==> db.requests[request].state != Pending
    modifies db`workflows, db`requests
    ensures db.Valid() && Confined(old(db.View()), db.View(), r, request)
    ensures reply == Ok(OpSucceeded) <==>
              && ending == Returned && OwnsNow(old(db.View()), r, attempt, lease) && Recordable(Op(old(db.View()), r), OpSucceeded)
              && OwnershipSettled(old(db.View()), r, attempt) && RequestReady(old(db.View()), request, owner, OpSucceeded)
    ensures reply.Ok? ==> Closed(db.View(), r, request, reply.value)
    ensures reply.Ok? && crossed && Effectful(Op(db.View(), r).action) ==> reply.value in {OpSucceeded, OpUncertain}
  {
    if ending != Returned {
      reply := SettleFailure(db, r, attempt, lease, request, owner, ending, crossed, error);
      return;
    }
    reply := Settle(db, r, attempt, lease, request, owner, OpSucceeded, NoPhase, false, "");
    if reply.Raised? {
      ghost var s1 := db.View();
      reply := SettleFailure(db, r, attempt, lease, request, owner, OtherFault, crossed, error);
      ConfinedTransitive(old(db.View()), s1, db.View(), r, request);
    }
  }

  // ----- The whole attempt -----

  /** The attempt is let through, its action returns, its lease lasts until then, everything below it is settled and its
      request is its own. */
  ghost predicate Succeeds(s: Store, r: OpRef, attempt: Token, lease: Token, request: nat, owner: Token, x: Script) {
    && LetThrough(s, r, attempt, lease, x) && x.action == Some(Returned)
    && LeaseLive(After(s, x.preparing + x.acting), r.w, lease)
    && OwnershipSettled(s, r, attempt) && RequestReady(s, request, owner, OpSucceeded)
  }

  /** One attempt from its reserved row to its settlement. The effect is let through exactly when nothing stands in its way
      and the attempt is recorded as succeeded exactly when it also comes back in time with everything below it settled.
      Whatever happens, the store stays valid, only the operation and its request are touched, and an effect that was let
      through is never recorded as failed or cancelled. */
  method RunDagAttempt(db: Database, r: OpRef, attempt: Token, lease: Token, request: nat, owner: Token, x: Script)
    returns (reply: Option<Reply<OperationState>>)
    requires db.Valid() && HasOp(db.View(), r) && Uncrossed(db.View(), r) && Plausible(x)
    requires request < |db.requests| ==> db.requests[request].state != Pending
    modifies db`workflows, db`requests, db`dispatches, db`now
    ensures db.Valid() && Confined(old(db.View()), db.View(), r, request)
    ensures db.dispatches == old(db.dispatches) + if LetThrough(old(db.View()), r, attempt, lease, x) then [r] else []
    ensures reply == Some(Ok(OpSucceeded)) <==> Succeeds(old(db.View()), r, attempt, lease, request, owner, x)
    ensures reply.None? <==> LetThrough(old(db.View()), r, attempt, lease, x) && x.action.None?
    ensures reply.Some? && reply.value.Ok? ==>
              && Closed(db.View(), r, request, reply.value.value)
              && (Effectful(Op(db.View(), r).action) && LetThrough(old(db.View()), r, attempt, lease, x) ==>
                    reply.value.value in {OpSucceeded, OpUncertain})
  {
    var a := Act(db, r, attempt, lease, request, x);
    ghost var s1 := db.View();
    SameOwnership(old(db.View()), s1, r, attempt);
    if a.ending.None? {
      var quarantined := db.QuarantineResourceRequest(request, owner);
      ConfinedTransitive(old(db.View()), s1, db.View(), r, request);
      return None;
    }
    var settled := Conclude(db, r, attempt, lease, request, owner, a.ending.value, a.crossed, x.error);
    ConfinedTransitive(old(db.View()), s1, db.View(), r, request);
    return Some(settled);
  }
}
