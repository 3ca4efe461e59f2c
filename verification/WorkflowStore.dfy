/** core/workflow_store.py as it is written: an object whose tables every call updates row by row.
    Each method is proved to compute the transaction that the run theorems reason about. */
module WorkflowStore {
  import opened Prelude
  import opened WorkflowModels
  import opened AdmissionTables
  import opened ResourceClaims
  import opened AdmissionProofs
  import opened WorkflowTransactions
  import opened WorkflowInvariants
  import opened WorkflowStoreProofs
  import opened StoreContracts

  class Database {
    var now: nat
    var nextToken: Token
    var workflows: seq<Workflow>
    var requests: seq<Request>
    var permits: seq<Permit>
    var dispatches: seq<OpRef>

    function View(): Store
      reads this
    {
      Store(now, nextToken, workflows, requests, permits, dispatches)
    }

    /** The invariant of every reachable store: tokens, crossings, dependencies, ownership and exclusion. */
    ghost predicate Valid()
      reads this
    {
      ValidStore(View())
    }

    constructor ()
      ensures View() == Store(0, 0, [], [], [], []) && Valid()
    {
      now, nextToken, workflows, requests, permits, dispatches := 0, 0, [], [], [], [];
    }

    /** Time goes by between two calls. */
    method PassTime(elapsed: nat)
      modifies this`now
      ensures View() == old(View()).(now := old(now) + elapsed)
      ensures old(Valid()) ==> Valid()
    {
      if Valid() { TickKeeps(View(), elapsed); }
      now := now + elapsed;
    }

    /** `UPDATE workflow_operations ... WHERE operation_id = ?`. */
    method UpdateOperation(r: OpRef, op: Operation)
      requires HasOp(View(), r)
      modifies this`workflows
      ensures View() == PutOp(old(View()), r, op)
    {
      var wf := workflows[r.w];
      workflows := workflows[r.w := wf.(ops := wf.ops[r.i := op])];
    }

    // ----- Resource requests -----

    /** `reserve_resource_claims`: insert the request on its first call, then activate it unless the scan finds a conflict. */
    method ReserveResourceClaims(known: Option<nat>, op: Option<OpRef>, owner: Token, category: string,
                                 claims: set<Claim>, policy: nat)
      returns (id: nat, reply: Reply<Verdict>)
      requires known.Some? ==> known.value < |requests|
      modifies this`requests
      ensures old(Valid()) && owner < nextToken && (op.Some? ==> HasOp(View(), op.value)) ==> Valid()
      ensures Grant(requests, id, reply) == ReserveClaims(old(requests), known, op, owner, category, claims, policy)
    {
      if Valid() && owner < nextToken && (op.Some? ==> HasOp(View(), op.value)) {
        ReserveKeepsValid(View(), known, op, owner, category, claims, policy);
      }
      if claims == {} { return 0, Raised(EmptyResourceClaims); }
      var before := requests;
      id := if known.Some? then known.value else |requests|;
      if known.None? {
        requests := requests + [Request(op, None, owner, category, Pending, claims, policy)];
      }
      var row := requests[id];
      if row.owner != owner || row.category != category || row.claims != claims {
        requests := before;
        return 0, Raised(ResourceRequestConflict);
      }
      if row.policy != policy { return id, Ok(Refused(PolicyIncompatible)); }
      if row.state == Active { return id, Ok(Admitted); }
      if row.state == Quarantined { return id, Ok(Refused(ResourceQuarantined)); }
      if row.state == Released { return id, Ok(Refused(RequestTerminal)); }
      var conflict := ScanConflicts(requests, id);
      if conflict.Some? { return id, Ok(Refused(conflict.value)); }
      requests := requests[id := row.(state := Active)];
      return id, Ok(Admitted);
    }

    method ReleaseResourceRequest(k: nat, owner: Token) returns (reply: Reply<bool>)
      modifies this`requests
      ensures |requests| == |old(requests)| && (old(Valid()) ==> Valid())
      ensures reply == Ok(true) <==> k < |requests| && old(requests)[k].state in {Active, Pending} && requests[k].state == Released
      ensures reply == Ok(true) ==> !HasLiveChild(permits, k)
      ensures reply.Raised? <==> k < |requests| && requests[k].owner != owner
      ensures requests == old(requests) || (OnlyRequest(old(requests), requests, k) && requests[k].state in {Released, Quarantined})
      ensures (requests, reply) == ReleaseRequest(old(requests), permits, k, owner)
    {
      ReleaseMeaning(View(), k, owner);
      if k >= |requests| { return Ok(false); }
      if requests[k].owner != owner { return Raised(ResourceOwnerMismatch); }
      if requests[k].state !in {Active, Pending} { return Ok(false); }
      if HasLiveChild(permits, k) {
        requests := requests[k := requests[k].(state := Quarantined)];
        return Ok(false);
      }
      requests := requests[k := requests[k].(state := Released)];
      return Ok(true);
    }

    method QuarantineResourceRequest(k: nat, owner: Token) returns (reply: Reply<()>)
      modifies this`requests
      ensures |requests| == |old(requests)|
      ensures old(Valid()) && reply.Raised? ==> Valid()
      ensures old(Valid()) && reply.Ok? ==> k < |requests| && (Valid() <==> Held(old(requests)[k].state) || Uncontested(old(requests), k))
      ensures reply.Ok? <==> k < |requests| && requests[k].owner == owner && old(requests)[k].state != Released
      ensures reply.Ok? ==> OnlyRequest(old(requests), requests, k) && requests[k].state == Quarantined
      ensures reply.Raised? ==> requests == old(requests)
      ensures (requests, reply) == QuarantineRequest(old(requests), k, owner)
    {
      QuarantineMeaning(View(), k, owner);
      if k >= |requests| { return Raised(ResourceRequestNotFound); }
      if requests[k].owner != owner { return Raised(ResourceOwnerMismatch); }
      if requests[k].state == Released { return Raised(ResourceRequestTerminal); }
      requests := requests[k := requests[k].(state := Quarantined)];
      return Ok(());
    }

    /** `resolve_quarantined_resource_request`, with the admissions it deletes and the aggregate it rewrites. */
    method ResolveQuarantinedRequest(k: nat, owner: Token) returns (reply: Reply<()>)
      modifies this`requests, this`workflows
      ensures old(Valid()) ==> Valid()
      ensures Tx(View(), reply) == ResolveQuarantined(old(View()), k, owner)
    {
      if Valid() { ResolveQuarantinedKeepsValid(View(), k, owner); }
      if k >= |requests| { return Raised(ResourceRequestNotFound); }
      if requests[k].owner != owner { return Raised(ResourceOwnerMismatch); }
      if requests[k].state != Quarantined { return Raised(ResourceRequestNotQuarantined); }
      if HasLiveChild(permits, k) { return Raised(ResourceChildrenUnresolved); }
      var ref := requests[k].op;
      requests := requests[k := requests[k].(state := Released)];
      if ref.None? || ref.value.w >= |workflows| || workflows[ref.value.w].state != WfUncertain { return Ok(()); }
      var w := ref.value.w;
      var wf := workflows[w];
      var ops := wf.ops;
      for i := 0 to |wf.ops|
        invariant |ops| == |wf.ops|
        invariant forall j :: 0 <= j < |ops| ==>
          ops[j] == if j < i && Terminal(wf.ops[j].state) then DropAdmission(requests, OpRef(w, j), wf.ops[j]) else wf.ops[j]
      {
        if Terminal(ops[i].state) && !HasUnreleasedRequest(requests, OpRef(w, i)) {
          ops := ops[i := ops[i].(admission := None)];
        }
      }
      workflows := workflows[w := wf.(ops := ops)];
      WriteAggregate(w, 1);
      var rows := requests;
      assert ops == seq(|wf.ops|, i requires 0 <= i < |wf.ops| =>
        if Terminal(wf.ops[i].state) then DropAdmission(rows, OpRef(w, i), wf.ops[i]) else wf.ops[i]);
      return Ok(());
    }

    // ----- Capacity -----

    method ReserveRuntimeCapacity(known: Option<nat>, category: string, owner: Token, weight: nat, limit: nat,
                                  parent: Option<nat>, parentOwner: Token, policy: nat)
      returns (reply: Reply<(nat, Verdict)>)
      modifies this`permits
      ensures old(Valid()) ==> Valid()
      ensures reply.Ok? <==> AsksProperly(old(View()), known, category, owner, weight, limit, parent, parentOwner, policy)
      ensures reply.Raised? ==> permits == old(permits)
      ensures reply.Ok? ==>
                var k := reply.value.0;
                && k == (if known.Some? then known.value else |old(permits)|) && k < |permits|
                && permits[..k] == old(permits)[..k] && (known.Some? ==> permits[k + 1..] == old(permits)[k + 1..])
                && permits[k] == Permit(category, owner, weight, permits[k].state, parent)
                && (reply.value.1 == Admitted <==> permits[k].state == Active)
                && (permits[k].state == Active <==>
                      if known.Some? && old(permits)[k].state != Pending then old(permits)[k].state == Active
                      else HasRoom(old(permits), k, category, weight, limit))
      ensures Tx(View(), reply) == ReserveCapacity(old(View()), known, category, owner, weight, limit, parent, parentOwner, policy)
    {
      CapacityMeaning(View(), known, category, owner, weight, limit, parent, parentOwner, policy);
      if Valid() { CapacityKeepsValid(View(), known, category, owner, weight, limit, parent, parentOwner, policy); }
      if weight < 1 || limit < 1 || weight > limit { return Raised(InvalidCapacityRequest); }
      if parent.Some? && !Capable(View(), parent.value, parentOwner, policy) { return Raised(ResourceCapabilityInvalid); }
      if known.Some? && known.value >= |permits| { return Raised(CapacityRequestConflict); }
      var before := permits;
      var k := if known.Some? then known.value else |permits|;
      if known.None? { permits := permits + [Permit(category, owner, weight, Pending, parent)]; }
      var row := permits[k];
      if row.owner != owner || row.category != category || row.weight != weight || row.parent != parent {
        permits := before;
        return Raised(CapacityRequestConflict);
      }
      if row.state == Active { return Ok((k, Admitted)); }
      if row.state == Quarantined { return Ok((k, Refused(CapacityQuarantined))); }
      if row.state == Released { return Ok((k, Refused(RequestTerminal))); }
      if OlderPending(permits, k) { return Ok((k, Refused(OlderCapacityRequest))); }
      if HeldWeight(permits, category) + weight > limit { return Ok((k, Refused(CapacityExhausted))); }
      permits := permits[k := row.(state := Active)];
      return Ok((k, Admitted));
    }

    // ----- Claim, prepare, dispatch, settle -----

    method ClaimReadyOperation(r: OpRef, lease: Token, globalLimit: nat) returns (reply: Reply<Option<Token>>)
      modifies this
      ensures old(Valid() && Uncrossed(View(), r)) ==> Valid()
      ensures reply == Ok(Some(old(nextToken))) <==> Claimable(old(View()), r, lease, globalLimit)
      ensures reply.Ok? && reply.value.Some? ==>
                && reply.value.value == old(nextToken) && nextToken == old(nextToken) + 1
                && OnlyRow(old(View()), View().(nextToken := old(nextToken)), r)
                && Owns(View(), r, Op(old(View()), r).version + 1, reply.value.value, lease)
                && Op(View(), r).state == Op(old(View()), r).state && Op(View(), r).phase == Reserved
      ensures !(reply.Ok? && reply.value.Some?) ==> View() == old(View())
      ensures Tx(View(), reply) == ClaimOperation(old(View()), r, lease, globalLimit)
    {
      ClaimMeaning(View(), r, lease, globalLimit);
      if Valid() && Uncrossed(View(), r) { ClaimKeepsValid(View(), r, lease, globalLimit); }
      reply := ClaimRow(r, lease, globalLimit);
    }

    method ClaimRow(r: OpRef, lease: Token, globalLimit: nat) returns (reply: Reply<Option<Token>>)
      modifies this`workflows, this`nextToken
      ensures Tx(View(), reply) == ClaimOperation(old(View()), r, lease, globalLimit)
    {
      if globalLimit < 1 { return Raised(InvalidAdmissionLimit); }
      if !HasOp(View(), r) { return Raised(OperationNotFound); }
      var wf, op := workflows[r.w], workflows[r.w].ops[r.i];
      if wf.state !in {WfRunning, WfCancelling} { return Ok(None); }
      if wf.cancelRequested || wf.state == WfCancelling { return Ok(None); }
      var fault := LeaseFault(View(), r.w, lease);
      if fault.Some? { return Raised(fault.value); }
      if op.state !in {OpCreated, OpFailed} { return Ok(None); }
      if op.admission.Some? { return Ok(None); }
      if !DepsDone(wf, r.i) { return Ok(None); }
      if GlobalAdmissions(workflows) + 1 > globalLimit || AdmissionCount(wf.ops) + 1 > ParallelLimit(wf) { return Ok(None); }
      var attempt := Admit(r, lease);
      return Ok(Some(attempt));
    }

    /** Insert the admission under a fresh attempt token and reserve the row. */
    method Admit(r: OpRef, lease: Token) returns (attempt: Token)
      requires HasOp(View(), r)
      modifies this`workflows, this`nextToken
      ensures attempt == old(nextToken)
      ensures var op := Op(old(View()), r);
              View() == PutOp(old(View()), r, op.(admission := Some(Admission(attempt, lease)), attempt := Some(attempt),
                          phase := Reserved, generation := op.generation + 1, version := op.version + 1)).(nextToken := attempt + 1)
    {
      var op := workflows[r.w].ops[r.i];
      attempt := nextToken;
      nextToken := nextToken + 1;
      UpdateOperation(r, op.(admission := Some(Admission(attempt, lease)), attempt := Some(attempt),
                             phase := Reserved, generation := op.generation + 1, version := op.version + 1));
    }

    method PrepareOperationAttempt(r: OpRef, expectedVersion: nat, attempt: Token, lease: Token) returns (reply: Reply<nat>)
      modifies this`workflows
      ensures old(Valid() && Uncrossed(View(), r)) ==> Valid()
      ensures reply.Ok? <==> Owns(old(View()), r, expectedVersion, attempt, lease) && !CancelWon(old(workflows)[r.w])
      ensures reply == Raised(CancelledBeforeDispatch) <==>
                Owns(old(View()), r, expectedVersion, attempt, lease) && CancelWon(old(workflows)[r.w])
      ensures reply.Raised? ==> View() == old(View())
      ensures reply.Ok? ==>
                && OnlyRow(old(View()), View(), r) && Owns(View(), r, reply.value, attempt, lease)
                && Op(View(), r).phase == Prepared && Op(View(), r).state == Op(old(View()), r).state
      ensures Tx(View(), reply) == PrepareAttempt(old(View()), r, expectedVersion, attempt, lease)
    {
      PrepareMeaning(View(), r, expectedVersion, attempt, lease);
      if Valid() && Uncrossed(View(), r) { PrepareKeepsValid(View(), r, expectedVersion, attempt, lease); }
      reply := PrepareRow(r, expectedVersion, attempt, lease);
    }

    method PrepareRow(r: OpRef, expectedVersion: nat, attempt: Token, lease: Token) returns (reply: Reply<nat>)
      modifies this`workflows
      ensures Tx(View(), reply) == PrepareAttempt(old(View()), r, expectedVersion, attempt, lease)
    {
      var fault := FenceFault(View(), r, expectedVersion, attempt, lease);
      if fault.Some? { return Raised(fault.value); }
      if CancelWon(workflows[r.w]) { return Raised(CancelledBeforeDispatch); }
      var op := workflows[r.w].ops[r.i];
      UpdateOperation(r, op.(phase := Prepared, version := op.version + 1));
      return Ok(op.version + 1);
    }

    method MarkOperationMayDispatch(r: OpRef, expectedVersion: nat, attempt: Token, lease: Token) returns (reply: Reply<nat>)
      modifies this`workflows, this`dispatches
      ensures old(Valid() && Uncrossed(View(), r)) ==>
                Valid() && (HasOp(View(), r) && Effectful(Op(View(), r).action) ==> Crossings(View(), r) <= 1)
      ensures reply.Ok? <==> Owns(old(View()), r, expectedVersion, attempt, lease) && !CancelWon(old(workflows)[r.w])
      ensures reply == Raised(CancelledBeforeDispatch) <==>
                Owns(old(View()), r, expectedVersion, attempt, lease) && CancelWon(old(workflows)[r.w])
      ensures reply.Raised? ==> View() == old(View())
      ensures reply.Ok? ==>
                && dispatches == old(dispatches) + [r] && OnlyRow(old(View()), View().(dispatches := old(dispatches)), r)
                && Owns(View(), r, reply.value, attempt, lease)
                && Op(View(), r).phase == MayDispatch && Op(View(), r).state == OpRunning && Op(View(), r).started
                && Op(View(), r).attempts == Op(old(View()), r).attempts + 1
      ensures Tx(View(), reply) == MarkMayDispatch(old(View()), r, expectedVersion, attempt, lease)
    {
      DispatchMeaning(View(), r, expectedVersion, attempt, lease);
      if Valid() && Uncrossed(View(), r) { DispatchKeepsValid(View(), r, expectedVersion, attempt, lease); }
      reply := DispatchRow(r, expectedVersion, attempt, lease);
    }

    method DispatchRow(r: OpRef, expectedVersion: nat, attempt: Token, lease: Token) returns (reply: Reply<nat>)
      modifies this`workflows, this`dispatches
      ensures Tx(View(), reply) == MarkMayDispatch(old(View()), r, expectedVersion, attempt, lease)
    {
      var fault := FenceFault(View(), r, expectedVersion, attempt, lease);
      if fault.Some? { return Raised(fault.value); }
      if CancelWon(workflows[r.w]) { return Raised(CancelledBeforeDispatch); }
      var op := workflows[r.w].ops[r.i];
      UpdateOperation(r, op.(state := OpRunning, phase := MayDispatch, attempts := op.attempts + 1,
                             version := op.version + 1, started := true));
      dispatches := dispatches + [r];
      return Ok(op.version + 1);
    }

    method CompleteOperationAttempt(r: OpRef, expectedVersion: nat, attempt: Token, lease: Token,
                                    final: OperationState, evidence: Phase, retrySafe: bool, error: string)
      returns (reply: Reply<OperationState>)
      modifies this`workflows
      ensures old(Valid() && HonestEvidence(View(), r, final, evidence)) ==> Valid()
      ensures reply.Ok? <==> Owns(old(View()), r, expectedVersion, attempt, lease) && Recordable(Op(old(View()), r), final)
      ensures reply.Raised? ==> View() == old(View())
      ensures reply.Ok? ==>
                && reply.value == (if OwnershipSettled(old(View()), r, attempt) then final else OpUncertain)
                && OnlyRow(old(View()), View(), r) && Op(View(), r).state == reply.value && Op(View(), r).phase == Settled
                && Op(View(), r).evidence == evidence && Op(View(), r).admission.None?
                && (forall v, k :: !Owns(View(), r, v, attempt, k))
      ensures Tx(View(), reply)
           == CompleteAttempt(old(View()), r, expectedVersion, attempt, lease, final, evidence, retrySafe, error)
    {
      CompleteMeaning(View(), r, expectedVersion, attempt, lease, final, evidence, retrySafe, error);
      if Valid() && HonestEvidence(View(), r, final, evidence) {
        CompleteKeepsValid(View(), r, expectedVersion, attempt, lease, final, evidence, retrySafe, error);
      }
      reply := SettleRow(r, expectedVersion, attempt, lease, final, evidence, retrySafe, error);
    }

    method SettleRow(r: OpRef, expectedVersion: nat, attempt: Token, lease: Token,
                     final: OperationState, evidence: Phase, retrySafe: bool, error: string)
      returns (reply: Reply<OperationState>)
      modifies this`workflows
      ensures Tx(View(), reply)
           == CompleteAttempt(old(View()), r, expectedVersion, attempt, lease, final, evidence, retrySafe, error)
    {
      if final !in {OpSucceeded, OpFailed, OpUncertain, OpCancelled} { return Raised(InvalidResolution); }
      var fault := FenceFault(View(), r, expectedVersion, attempt, lease);
      if fault.Some? { return Raised(fault.value); }
      var op := workflows[r.w].ops[r.i];
      var undispatched := op.state in {OpCreated, OpFailed} && op.phase in {Reserved, Prepared} && final in {OpFailed, OpCancelled};
      if !undispatched && !OperationMay(op.state, final) { return Raised(InvalidTransition); }
      var settled, reason := final, error;
      if OwnershipUnresolved(View(), r, attempt) {
        settled, reason := OpUncertain, CHILD_UNRESOLVED;
      }
      UpdateOperation(r, op.(state := settled, phase := Settled, version := op.version + 1, evidence := evidence,
                             retrySafe := retrySafe, error := reason, admission := None));
      return Ok(settled);
    }

    /** `update_operation_context`: recovery identity is recorded for a running operation under a live lease. */
    method UpdateOperationContext(r: OpRef, lease: Token, setsExternalRef: bool) returns (reply: Reply<()>)
      modifies this`workflows
      ensures old(Valid()) ==> Valid()
      ensures reply.Ok? <==>
                HasOp(old(View()), r) && Op(old(View()), r).state in {OpRunning, OpWaiting} && LeaseLive(old(View()), r.w, lease)
      ensures reply.Raised? ==> View() == old(View())
      ensures reply.Ok? ==>
                && OnlyRow(old(View()), View(), r)
                && Op(View(), r) == Op(old(View()), r).(version := Op(View(), r).version, externalRef := Op(View(), r).externalRef)
                && (Op(View(), r).externalRef <==> Op(old(View()), r).externalRef || setsExternalRef)
      ensures Tx(View(), reply) == UpdateContext(old(View()), r, lease, setsExternalRef)
    {
      ContextMeaning(View(), r, lease, setsExternalRef);
      if !HasOp(View(), r) { return Raised(OperationNotFound); }
      var op := workflows[r.w].ops[r.i];
      if op.state !in {OpRunning, OpWaiting} { return Raised(NotActive); }
      var fault := LeaseFault(View(), r.w, lease);
      if fault.Some? { return Raised(fault.value); }
      UpdateOperation(r, op.(version := op.version + 1, externalRef := op.externalRef || setsExternalRef));
      return Ok(());
    }

    // ----- Aggregates -----

    /** Recompute the aggregate of a workflow and write it over the row. */
    method WriteAggregate(w: nat, bump: nat)
      requires w < |workflows|
      modifies this`workflows
      ensures View() == Aggregated(old(View()), w, false, bump)
    {
      var state, error := AggregateRows(w, false);
      var wf := workflows[w];
      workflows := workflows[w := wf.(state := state, version := wf.version + bump,
                                      currentStep := FirstUnfinished(wf.ops, 0), lastError := error)];
    }

    /** One pass over the operation rows: the states present, whether any is active, the first failure's text. */
    static method ScanOperations(ops: seq<Operation>)
      returns (states: set<OperationState>, active: bool, firstError: Option<string>)
      ensures forall st :: st in states <==> SomeOp(ops, {st})
      ensures active <==> HasActive(ops)
      ensures firstError.Some? <==> SomeOp(ops, {OpFailed, OpUnresolvable})
      ensures firstError.Some? ==> firstError.value == FirstFailure(ops, 0)
    {
      states, active, firstError := {}, false, None;
      for i := 0 to |ops|
        invariant forall st :: st in states <==> SomeOp(ops[..i], {st})
        invariant active <==> HasActive(ops[..i])
        invariant firstError.Some? <==> SomeOp(ops[..i], {OpFailed, OpUnresolvable})
        invariant FirstFailure(ops, 0) == if firstError.Some? then firstError.value else FirstFailure(ops, i)
      {
        SomeOpSplits(ops[..i], ops[i]);
        assert ops[..i + 1] == ops[..i] + [ops[i]];
        states := states + {ops[i].state};
        active := active || (ops[i].admission.Some? && ops[i].state in {OpCreated, OpRunning, OpWaiting});
        if firstError.None? && ops[i].state in {OpFailed, OpUnresolvable} {
          firstError := Some(if ops[i].error == "" then OPERATION_FAILED else ops[i].error);
        }
      }
      assert ops[..|ops|] == ops;
    }

    /** `_aggregate_state`: the state and error that the rows of a workflow imply. */
    method AggregateRows(w: nat, keepRunning: bool) returns (state: WorkflowState, error: string)
      requires w < |workflows|
      ensures state == AggregateState(View(), w, keepRunning) && error == AggregateError(View(), w, keepRunning)
    {
      var ops := workflows[w].ops;
      var states, active, firstError := ScanOperations(ops);
      StatesOf(ops, states);
      var cancelled := workflows[w].cancelRequested || OpCancelled in states;
      error := "";
      if active {
        state := if cancelled then WfCancelling else WfRunning;
      } else if OpUncertain in states || OpReconciling in states || WorkflowHolds(requests, w) {
        state, error := WfUncertain, OWNERSHIP_UNRESOLVED;
      } else if firstError.Some? {
        state, error := WfFailed, firstError.value;
      } else if cancelled {
        state := WfCancelled;
      } else if ops != [] && states <= {OpSucceeded, OpAcknowledged} {
        state := WfCompleted;
      } else {
        state := if keepRunning then WfRunning else WfPaused;
      }
    }

    method RecomputeWorkflowAggregate(w: nat, lease: Token, stopReason: string, keepRunning: bool) returns (reply: Reply<()>)
      modifies this`workflows
      ensures old(Valid()) ==> Valid()
      ensures Tx(View(), reply) == Recompute(old(View()), w, lease, stopReason, keepRunning)
    {
      if Valid() { RecomputeKeepsValid(View(), w, lease, stopReason, keepRunning); }
      reply := RecomputeRow(w, lease, stopReason, keepRunning);
    }

    method RecomputeRow(w: nat, lease: Token, stopReason: string, keepRunning: bool) returns (reply: Reply<()>)
      modifies this`workflows
      ensures Tx(View(), reply) == Recompute(old(View()), w, lease, stopReason, keepRunning)
    {
      if w >= |workflows| { return Raised(WorkflowNotFound); }
      var fault := LeaseFault(View(), w, lease);
      if fault.Some? { return Raised(fault.value); }
      var target, error := AggregateRows(w, keepRunning);
      if error == "" { error := stopReason; }
      var wf := workflows[w];
      var step := FirstUnfinished(wf.ops, 0);
      if target == wf.state && step == wf.currentStep && error == wf.lastError { return Ok(()); }
      var updated := wf.(state := target, currentStep := step, version := wf.version + 1, lastError := error);
      TwoWrites(workflows, w, Aggregated(View(), w, keepRunning, 1).workflows[w], updated);
      workflows := workflows[w := updated];
      return Ok(());
    }

    // ----- Reconciliation and acknowledgement -----

    method ResolveUncertainOperation(r: OpRef, expectedVersion: nat, final: OperationState) returns (reply: Reply<()>)
      modifies this`workflows
      ensures old(Valid()) ==> Valid()
      ensures Tx(View(), reply) == ResolveUncertain(old(View()), r, expectedVersion, final)
    {
      if Valid() { ResolveKeepsValid(View(), r, expectedVersion, final); }
      if final !in {OpSucceeded, OpFailed, OpUncertain, OpAcknowledged, OpUnresolvable} { return Raised(InvalidResolution); }
      if !HasOp(View(), r) { return Raised(OperationNotFound); }
      var op := workflows[r.w].ops[r.i];
      if op.version != expectedVersion { return Raised(VersionConflict); }
      if op.state != OpUncertain { return Raised(NotUncertain); }
      if workflows[r.w].state != WfUncertain { return Raised(WorkflowNotUncertain); }
      var bump := if final == OpUncertain then 1 else 2;
      op := op.(state := final, version := op.version + bump, evidence := NoPhase, retrySafe := false,
                error := if final in {OpFailed, OpUnresolvable} then op.error else "");
      if final != OpUncertain && !HasUnreleasedRequest(requests, r) { op := op.(admission := None); }
      assert op == ResolvedOp(View(), r, final);
      UpdateOperation(r, op);
      WriteAggregate(r.w, bump);
      return Ok(());
    }

    // ----- Leases -----

    method AcquireWorkflowLease(w: nat, owner: nat, ttl: nat, allowReentry: bool) returns (reply: Reply<Token>)
      modifies this
      ensures |workflows| == |old(workflows)| && (old(Valid()) ==> Valid())
      ensures reply == Raised(AlreadyClaimed) <==>
                w < |workflows| && old(workflows)[w].lease.Some? && now < old(workflows)[w].lease.value.expires
                && !(allowReentry && old(workflows)[w].lease.value.owner == owner)
      ensures reply.Raised? ==> View() == old(View())
      ensures reply.Ok? ==>
                && w < |workflows| && workflows[w].lease.Some? && workflows[w].lease.value.owner == owner
                && workflows[w].lease.value.token == reply.value && (ttl > 0 ==> LeaseLive(View(), w, reply.value))
      ensures reply.Ok? && View() != old(View()) ==>
                && reply.value == old(nextToken) && OnlyWorkflow(old(View()), View().(nextToken := old(nextToken)), w)
                && (forall token: Token :: token < old(nextToken) ==> !LeaseLive(View(), w, token))
      ensures Tx(View(), reply) == AcquireLease(old(View()), w, owner, ttl, allowReentry)
    {
      AcquireMeaning(View(), w, owner, ttl, allowReentry);
      if w >= |workflows| { return Raised(WorkflowNotFound); }
      var wf := workflows[w];
      if wf.lease.Some? && wf.lease.value.expires > now {
        if wf.lease.value.owner != owner || !allowReentry { return Raised(AlreadyClaimed); }
        return Ok(wf.lease.value.token);
      }
      reply := Ok(nextToken);
      workflows := workflows[w := wf.(lease := Some(Lease(owner, nextToken, now + ttl)))];
      nextToken := nextToken + 1;
    }

    method RenewWorkflowLease(w: nat, lease: Token, ttl: nat) returns (reply: Reply<()>)
      modifies this`workflows
      ensures old(Valid()) ==> Valid()
      ensures reply.Ok? <==> LeaseLive(old(View()), w, lease)
      ensures reply.Raised? ==> View() == old(View())
      ensures reply.Ok? ==>
                && OnlyWorkflow(old(View()), View(), w)
                && workflows[w] == old(workflows)[w].(lease := Some(old(workflows)[w].lease.value.(expires := now + ttl)))
                && (ttl > 0 ==> LeaseLive(View(), w, lease))
      ensures Tx(View(), reply) == RenewLease(old(View()), w, lease, ttl)
    {
      RenewMeaning(View(), w, lease, ttl);
      if w >= |workflows| || workflows[w].lease.None? { return Raised(LeaseMissing); }
      var current := workflows[w].lease.value;
      if current.token != lease { return Raised(LeaseTokenMismatch); }
      if current.expires <= now { return Raised(LeaseExpired); }
      workflows := workflows[w := workflows[w].(lease := Some(current.(expires := now + ttl)))];
      return Ok(());
    }

    // ----- Cancellation and resume -----

    method RequestWorkflowCancel(w: nat, expectedVersion: nat) returns (reply: Reply<()>)
      modifies this`workflows
      ensures |workflows| == |old(workflows)| && (old(Valid()) ==> Valid())
      ensures reply.Ok? <==> w < |workflows| && old(workflows)[w].version == expectedVersion
      ensures reply.Raised? ==> View() == old(View())
      ensures reply.Ok? && old(workflows)[w].state in {WfCompleted, WfCancelled, WfCancelling} ==> View() == old(View())
      ensures reply.Ok? && old(workflows)[w].state !in {WfCompleted, WfCancelled, WfCancelling} ==>
                && OnlyWorkflow(old(View()), View(), w) && workflows[w].version == expectedVersion + 1
                && workflows[w].state == (if old(workflows)[w].state == WfRunning then WfCancelling else WfCancelled)
                && workflows[w].cancelRequested && AdmitsNoMore(View(), w)
      ensures Tx(View(), reply) == RequestCancel(old(View()), w, expectedVersion)
    {
      CancelMeaning(View(), w, expectedVersion);
      if w >= |workflows| { return Raised(WorkflowNotFound); }
      var wf := workflows[w];
      if wf.version != expectedVersion { return Raised(VersionConflict); }
      if wf.state in {WfCompleted, WfCancelled, WfCancelling} { return Ok(()); }
      var target := if wf.state == WfRunning then WfCancelling else WfCancelled;
      if !WorkflowMay(wf.state, target) { return Raised(InvalidTransition); }
      workflows := workflows[w := wf.(state := target, cancelRequested := true, version := wf.version + 1)];
      return Ok(());
    }

    /** `transition`; resuming requeues the failed operations one by one. */
    method TransitionWorkflow(w: nat, expectedVersion: nat, target: WorkflowState, lease: Option<Token>, note: Note)
      returns (reply: Reply<()>)
      modifies this`workflows
      ensures old(Valid()) ==> Valid()
      ensures Tx(View(), reply) == Transition(old(View()), w, expectedVersion, target, lease, note)
    {
      if Valid() { TransitionKeepsValid(View(), w, expectedVersion, target, lease, note); }
      if w >= |workflows| { return Raised(WorkflowNotFound); }
      var wf := workflows[w];
      if wf.version != expectedVersion { return Raised(VersionConflict); }
      if lease.Some? {
        var fault := LeaseFault(View(), w, lease.value);
        if fault.Some? { return Raised(fault.value); }
      }
      if !WorkflowMay(wf.state, target) { return Raised(InvalidTransition); }
      var ops := wf.ops;
      if target == WfQueued {
        var fault := ResumeFault(View(), w);
        if fault.Some? { return Raised(fault.value); }
        if wf.state in {WfFailed, WfPaused} { ops := RequeueFailed(wf.ops); }
      }
      var step := if note.step.Some? then note.step.value else wf.currentStep;
      workflows := workflows[w := wf.(state := target, version := wf.version + 1, ops := ops, currentStep := step,
                                      lastError := Truncated(note.error))];
      return Ok(());
    }

    // ----- Crash recovery -----

    /** `_recover_dag_execution`: recover the rows, recompute the aggregate, drop the lease. */
    method RecoverDagExecution(w: nat)
      modifies this`workflows, this`requests
      ensures old(Valid()) ==> Valid()
      ensures View() == Recover(old(View()), w)
    {
      if Valid() { RecoverKeepsValid(View(), w); }
      if w >= |workflows| || !NeedsRecovery(View(), w) { return; }
      var ops, rows := RecoverRows(View(), w);
      requests := rows;
      workflows := workflows[w := workflows[w].(ops := ops)];
      WriteAggregate(w, 1);
      workflows := workflows[w := workflows[w].(lease := None)];
    }
  }

  /** The explicit resume: every failed operation goes back to created, the others stay. */
  method RequeueFailed(ops: seq<Operation>) returns (ops': seq<Operation>)
    ensures ops' == RequeuedAll(ops)
  {
    ops' := ops;
    for i := 0 to |ops|
      invariant |ops'| == |ops|
      invariant forall j :: 0 <= j < |ops| ==> ops'[j] == if j < i then Requeued(ops[j]) else ops[j]
    {
      if ops[i].state == OpFailed {
        ops' := ops'[i := ops[i].(state := OpCreated, version := ops[i].version + 1, attempt := None, phase := NoPhase,
                                  evidence := NoPhase, retrySafe := false, error := "")];
      }
    }
  }

  /** The scan of `reserve_resource_claims`: the other unreleased requests in ticket order, up to the first that conflicts. */
  method ScanConflicts(rows: seq<Request>, id: nat) returns (conflict: Option<Refusal>)
    requires id < |rows|
    ensures conflict.Some? <==> FirstBlocker(rows, id, 0) < |rows|
    ensures conflict.Some? ==> conflict.value == WhyBlocked(rows, id, FirstBlocker(rows, id, 0))
  {
    var claims, policy := rows[id].claims, rows[id].policy;
    for j := 0 to |rows|
      invariant FirstBlocker(rows, id, 0) == FirstBlocker(rows, id, j)
    {
      var other := rows[j];
      if j == id || other.state == Released || (other.state == Pending && j > id) { continue; }
      if other.state != Quarantined && other.policy != policy { return Some(PolicyIncompatible); }
      if !SetsConflict(claims, other.claims) { continue; }
      if other.state == Quarantined { return Some(ResourceQuarantined); }
      if other.state == Active { return Some(ResourceConflict); }
      return Some(OlderConflictingRequest);
    }
    return None;
  }

  /** The loop of recovery: operation by operation, its row, then its requests, then its admission. */
  method RecoverRows(s: Store, w: nat) returns (ops: seq<Operation>, rows: seq<Request>)
    requires w < |s.workflows|
    ensures ops == seq(|s.workflows[w].ops|, i requires 0 <= i < |s.workflows[w].ops| => RecoveredOp(s, OpRef(w, i)))
    ensures rows == RecoveredRequests(s, w)
  {
    ops, rows := s.workflows[w].ops, s.requests;
    for i := 0 to |ops|
      invariant |ops| == |s.workflows[w].ops| && |rows| == |s.requests|
      invariant OpsRecovered(s, w, ops, i)
      invariant RequestsRecovered(s, w, rows, i)
    {
      var current := PutWorkflow(s, w, s.workflows[w].(ops := ops)).(requests := rows);
      ChildFixed(s, current, OpRef(w, i));
      var op, rows' := RecoverOperation(s, w, i, ops[i], HasChild(current, OpRef(w, i)), rows);
      OneMoreRecovered(s, w, ops, i);
      ops, rows := ops[i := op], rows';
    }
    AllRecovered(s, w, ops, rows);
  }

  /** One pass of the recovery loop over operation i. */
  method RecoverOperation(ghost s: Store, w: nat, i: nat, op: Operation, hasChild: bool, rows: seq<Request>)
    returns (op': Operation, rows': seq<Request>)
    requires w < |s.workflows| && i < |s.workflows[w].ops| && op == s.workflows[w].ops[i]
    requires hasChild == HasChild(s, OpRef(w, i))
    requires |rows| == |s.requests| && RequestsRecovered(s, w, rows, i)
    ensures op' == RecoveredOp(s, OpRef(w, i))
    ensures |rows'| == |s.requests| && RequestsRecovered(s, w, rows', i + 1)
  {
    var safe := op.state == OpCreated && !hasChild &&
      (op.phase in {Reserved, Prepared} || (op.phase == NoPhase && !op.started && op.attempts == 0));
    var state := op.state;
    if state in {OpRunning, OpWaiting, OpReconciling} || (state == OpCreated && !safe) { state := OpUncertain; }
    assert state == RecoveredState(s, OpRef(w, i));
    rows' := SettleRequests(s, w, i, rows, safe || (Terminal(state) && !hasChild));
    op' := op.(state := state, version := op.version + 1, phase := if safe then NoPhase else op.phase,
               error := if state == OpUncertain then RUNTIME_ENDED else op.error);
    UnreleasedFixed(s, w, rows', i);
    if (safe || Terminal(state)) && !HasUnreleasedRequest(rows', OpRef(w, i)) { op' := op'.(admission := None); }
  }

  /** The request rows of operation i: pending ones are released, active ones released or quarantined. */
  method SettleRequests(ghost s: Store, w: nat, i: nat, rows: seq<Request>, settled: bool) returns (rows': seq<Request>)
    requires w < |s.workflows| && i < |s.workflows[w].ops| && |rows| == |s.requests|
    requires RequestsRecovered(s, w, rows, i)
    requires settled <==> SafeToForget(s, OpRef(w, i)) || (Terminal(RecoveredState(s, OpRef(w, i))) && !HasChild(s, OpRef(w, i)))
    ensures |rows'| == |s.requests| && RequestsRecovered(s, w, rows', i + 1)
  {
    rows' := rows;
    for k := 0 to |rows|
      invariant |rows'| == |rows|
      invariant forall m :: k <= m < |rows| ==> rows'[m] == rows[m]
      invariant forall m :: 0 <= m < k ==>
          rows'[m] == if rows[m].op == Some(OpRef(w, i)) then RecoveredRequest(s, w, rows[m]) else rows[m]
    {
      if rows[k].op == Some(OpRef(w, i)) && rows[k].state in {Active, Pending} {
        rows' := rows'[k := rows[k].(state := if rows[k].state == Pending || settled then Released else Quarantined)];
      }
    }
  }

  // ----- What the recovery loop has done so far -----

  ghost predicate OpsRecovered(s: Store, w: nat, ops: seq<Operation>, i: nat)
    requires w < |s.workflows| && |ops| == |s.workflows[w].ops|
  {
    forall j :: 0 <= j < |ops| ==> ops[j] == if j < i then RecoveredOp(s, OpRef(w, j)) else s.workflows[w].ops[j]
  }

  ghost predicate RequestsRecovered(s: Store, w: nat, requests: seq<Request>, i: nat)
    requires w < |s.workflows| && |requests| == |s.requests|
  {
    forall k :: 0 <= k < |requests| ==>
          requests[k] == if s.requests[k].op.Some? && s.requests[k].op.value.i < i
                         then RecoveredRequest(s, w, s.requests[k]) else s.requests[k]
  }

  lemma OneMoreRecovered(s: Store, w: nat, ops: seq<Operation>, i: nat)
    requires w < |s.workflows| && |ops| == |s.workflows[w].ops| && i < |ops| && OpsRecovered(s, w, ops, i)
    ensures OpsRecovered(s, w, ops[i := RecoveredOp(s, OpRef(w, i))], i + 1)
  {
  }

  /** Whether an operation still has a child depends on nothing the loop has changed. */
  lemma ChildFixed(s: Store, t: Store, r: OpRef)
    requires HasOp(s, r) && HasOp(t, r) && Op(t, r) == Op(s, r) && t.permits == s.permits && |t.requests| == |s.requests|
    requires forall k :: 0 <= k < |s.requests| ==> t.requests[k].op == s.requests[k].op
    ensures HasChild(t, r) <==> HasChild(s, r)
  {
  }

  lemma UnreleasedFixed(s: Store, w: nat, requests: seq<Request>, i: nat)
    requires w < |s.workflows| && |requests| == |s.requests| && RequestsRecovered(s, w, requests, i + 1)
    ensures HasUnreleasedRequest(requests, OpRef(w, i)) <==> HasUnreleasedRequest(RecoveredRequests(s, w), OpRef(w, i))
  {
    forall k | 0 <= k < |requests| && s.requests[k].op == Some(OpRef(w, i))
      ensures requests[k] == RecoveredRequests(s, w)[k]
    {
    }
  }

  lemma AllRecovered(s: Store, w: nat, ops: seq<Operation>, requests: seq<Request>)
    requires w < |s.workflows| && |ops| == |s.workflows[w].ops| && |requests| == |s.requests|
    requires OpsRecovered(s, w, ops, |ops|) && RequestsRecovered(s, w, requests, |ops|)
    ensures ops == seq(|ops|, i requires 0 <= i < |ops| => RecoveredOp(s, OpRef(w, i)))
    ensures requests == RecoveredRequests(s, w)
  {
  }

  // ----- Folding the states of a workflow -----

  lemma TwoWrites(rows: seq<Workflow>, w: nat, a: Workflow, b: Workflow)
    requires w < |rows|
    ensures rows[w := a][w := b] == rows[w := b]
  {
  }

  lemma SomeOpSplits(ops: seq<Operation>, op: Operation)
    ensures forall states :: SomeOp(ops + [op], states) <==> SomeOp(ops, states) || op.state in states
    ensures HasActive(ops + [op]) <==> HasActive(ops) || (op.admission.Some? && op.state in {OpCreated, OpRunning, OpWaiting})
  {
    assert (ops + [op])[|ops|] == op;
    forall i | 0 <= i < |ops| ensures (ops + [op])[i] == ops[i] { }
  }

  lemma StatesOf(ops: seq<Operation>, states: set<OperationState>)
    requires forall st :: st in states <==> SomeOp(ops, {st})
    ensures SomeOp(ops, {OpUncertain, OpReconciling}) <==> OpUncertain in states || OpReconciling in states
    ensures AllDone(ops) <==> states <= {OpSucceeded, OpAcknowledged}
  {
    forall i | 0 <= i < |ops| ensures ops[i].state in states { assert SomeOp(ops, {ops[i].state}); }
  }
}
