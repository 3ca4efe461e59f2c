/** What each transaction of core/workflow_store.py means for its caller: when it succeeds, what it leaves alone, what
    the caller may do next and which invariant survives. */
module StoreContracts {
  import opened Prelude
  import opened WorkflowModels
  import opened ResourceClaims
  import opened AdmissionTables
  import opened AdmissionProofs
  import opened WorkflowTransactions
  import opened WorkflowInvariants
  import opened WorkflowStoreProofs

  /** The store invariant, with the exclusion of conflicting holders. */
  ghost predicate ValidStore(s: Store) { StoreOk(s) && Exclusive(s.requests) }

  predicate LeaseLive(s: Store, w: nat, token: Token) {
    && w < |s.workflows| && s.workflows[w].lease.Some? && s.workflows[w].lease.value.token == token
    && s.now < s.workflows[w].lease.value.expires
  }

  /** The attempt holds the admission of the row at this version under a live lease. */
  predicate Owns(s: Store, r: OpRef, version: nat, attempt: Token, token: Token) {
    && HasOp(s, r) && Op(s, r).version == version && Op(s, r).attempt == Some(attempt)
    && Op(s, r).admission == Some(Admission(attempt, token)) && LeaseLive(s, r.w, token)
  }

  /** An effect that has not been let through yet. */
  ghost predicate Uncrossed(s: Store, r: OpRef) { HasOp(s, r) && Effectful(Op(s, r).action) ==> Crossings(s, r) == 0 }

  /** Nothing but operation row r differs. */
  ghost predicate OnlyRow(s: Store, s': Store, r: OpRef) {
    && s' == s.(workflows := s'.workflows) && HasOp(s, r) && |s'.workflows| == |s.workflows|
    && (forall w :: 0 <= w < |s.workflows| ==>
          s'.workflows[w] == s.workflows[w].(ops := s'.workflows[w].ops) && |s'.workflows[w].ops| == |s.workflows[w].ops|)
    && (forall q :: HasOp(s, q) && q != r ==> Op(s', q) == Op(s, q))
  }

  /** Nothing but the workflow row w differs, and there only what is not an operation. */
  ghost predicate OnlyWorkflow(s: Store, s': Store, w: nat) {
    && s' == s.(workflows := s'.workflows) && w < |s.workflows| && |s'.workflows| == |s.workflows|
    && s'.workflows[w].ops == s.workflows[w].ops
    && (forall v :: 0 <= v < |s.workflows| && v != w ==> s'.workflows[v] == s.workflows[v])
  }

  /** Nothing but row k of a table differs. */
  ghost predicate OnlyRequest(rows: seq<Request>, rows': seq<Request>, k: nat) {
    |rows'| == |rows| && k < |rows| && rows'[k] == rows[k].(state := rows'[k].state)
    && forall j :: 0 <= j < |rows| && j != k ==> rows'[j] == rows[j]
  }

  lemma PutOpIsOnlyRow(s: Store, r: OpRef, op: Operation)
    requires HasOp(s, r)
    ensures OnlyRow(s, PutOp(s, r, op), r) && Op(PutOp(s, r, op), r) == op
  {
  }

  // ----- Resource requests -----

  /** A release answers true exactly when it released the request, and never releases one with a live child. */
  lemma ReleaseMeaning(s: Store, k: nat, owner: Token)
    ensures var (rows, reply) := ReleaseRequest(s.requests, s.permits, k, owner);
            && (reply.Raised? <==> k < |s.requests| && s.requests[k].owner != owner)
            && (reply == Ok(true) <==> k < |s.requests| && s.requests[k].state in {Active, Pending} && rows[k].state == Released)
            && (reply == Ok(true) ==> !HasLiveChild(s.permits, k))
            && (rows == s.requests
                || (OnlyRequest(s.requests, rows, k) && s.requests[k].owner == owner && rows[k].state in {Released, Quarantined}))
            && (ValidStore(s) ==> ValidStore(s.(requests := rows)))
  {
    var rows := ReleaseRequest(s.requests, s.permits, k, owner).0;
    if ValidStore(s) {
      ReleaseRequestKeeps(s, k, owner);
      forall j | 0 <= j < |rows| ensures Retires(s.requests[j], rows[j]) {
        if j == k && HasLiveChild(s.permits, k) {
          var c :| 0 <= c < |s.permits| && s.permits[c].parent == Some(k) && s.permits[c].state != Released;
          assert PermitOk(s, c);
        }
      }
      RetiringIsAStep(s.requests, rows);
      ExclusionKept(s.requests, rows);
    }
  }

  /** A quarantine succeeds for the owner of a request that is not over. It keeps a valid store valid if and only if the
      request was held already or no holder contests it. */
  lemma QuarantineMeaning(s: Store, k: nat, owner: Token)
    ensures var (rows, reply) := QuarantineRequest(s.requests, k, owner);
            && (reply.Ok? <==> k < |s.requests| && s.requests[k].owner == owner && s.requests[k].state != Released)
            && (reply.Ok? ==> OnlyRequest(s.requests, rows, k) && rows[k].state == Quarantined)
            && (reply.Raised? ==> rows == s.requests)
            && (ValidStore(s) && reply.Ok? ==>
                  (ValidStore(s.(requests := rows)) <==> Held(s.requests[k].state) || Uncontested(s.requests, k)))
  {
    if ValidStore(s) && QuarantineRequest(s.requests, k, owner).1.Ok? {
      QuarantineRequestKeeps(s, k, owner);
      QuarantineExclusiveIff(s.requests, k, owner);
    }
  }

  lemma ReserveKeepsValid(s: Store, known: Option<nat>, op: Option<OpRef>, owner: Token, category: string, claims: set<Claim>, policy: nat)
    requires ValidStore(s) && owner < s.nextToken && (op.Some? ==> HasOp(s, op.value)) && (known.Some? ==> known.value < |s.requests|)
    ensures ValidStore(s.(requests := ReserveClaims(s.requests, known, op, owner, category, claims, policy).rows))
  {
    ReserveClaimsKeeps(s, known, op, owner, category, claims, policy, s.nextToken);
    ReserveIsAStep(s.requests, known, op, owner, category, claims, policy);
    ExclusionKept(s.requests, ReserveClaims(s.requests, known, op, owner, category, claims, policy).rows);
  }

  lemma ResolveQuarantinedKeepsValid(s: Store, k: nat, owner: Token)
    requires ValidStore(s)
    ensures ValidStore(ResolveQuarantined(s, k, owner).store)
  {
    ResolveQuarantinedKeeps(s, k, owner);
    var rows := ResolveQuarantined(s, k, owner).store.requests;
    RetiringIsAStep(s.requests, rows);
    ExclusionKept(s.requests, rows);
  }

  lemma RecoverKeepsValid(s: Store, w: nat)
    requires ValidStore(s)
    ensures ValidStore(Recover(s, w))
  {
    RecoverKeeps(s, w);
    if w < |s.workflows| && NeedsRecovery(s, w) {
      RecoverShape(s, w);
      RetiringIsAStep(s.requests, Recover(s, w).requests);
      ExclusionKept(s.requests, Recover(s, w).requests);
    }
  }

  // ----- Capacity -----

  /** The request for capacity is well formed, names its own row and, as a child, a parent that still authorises it. */
  predicate AsksProperly(s: Store, known: Option<nat>, category: string, owner: Token, weight: nat, limit: nat,
                         parent: Option<nat>, parentOwner: Token, policy: nat)
  {
    && 1 <= weight <= limit
    && (parent.Some? ==> Capable(s, parent.value, parentOwner, policy))
    && (known.Some? ==>
          && known.value < |s.permits|
          && s.permits[known.value] == Permit(category, owner, weight, s.permits[known.value].state, parent))
  }

  predicate HasRoom(permits: seq<Permit>, k: nat, category: string, weight: nat, limit: nat) {
    && (forall j :: 0 <= j < k && j < |permits| && permits[j].category == category ==> permits[j].state != Pending)
    && HeldWeight(permits, category) + weight <= limit
  }

  /** The first call enters the queue; a call is admitted exactly when its permit is active already, or is the first in
      line of its category and fits under the limit. */
  lemma CapacityMeaning(s: Store, known: Option<nat>, category: string, owner: Token, weight: nat, limit: nat,
                        parent: Option<nat>, parentOwner: Token, policy: nat)
    ensures var t := ReserveCapacity(s, known, category, owner, weight, limit, parent, parentOwner, policy);
            var k := if known.Some? then known.value else |s.permits|;
            && (t.reply.Ok? <==> AsksProperly(s, known, category, owner, weight, limit, parent, parentOwner, policy))
            && (t.reply.Raised? ==> t.store == s)
            && (t.reply.Ok? ==>
                  && t.reply.value.0 == k && k < |t.store.permits| && t.store == s.(permits := t.store.permits)
                  && t.store.permits[..k] == s.permits[..k] && (known.Some? ==> t.store.permits[k + 1..] == s.permits[k + 1..])
                  && t.store.permits[k] == Permit(category, owner, weight, t.store.permits[k].state, parent))
            && (t.reply.Ok? ==> (t.reply.value.1 == Admitted <==> t.store.permits[k].state == Active))
            && (t.reply.Ok? ==> (t.store.permits[k].state == Active <==>
                  if known.Some? && s.permits[k].state != Pending then s.permits[k].state == Active
                  else HasRoom(s.permits, k, category, weight, limit)))
  {
    if AsksProperly(s, known, category, owner, weight, limit, parent, parentOwner, policy) {
      RoomAfterEntering(s.permits, known, category, owner, weight, limit, parent);
    }
  }

  /** Entering the queue changes neither who is in front nor what is held. */
  lemma RoomAfterEntering(permits: seq<Permit>, known: Option<nat>, category: string, owner: Token,
                          weight: nat, limit: nat, parent: Option<nat>)
    requires known.Some? ==> known.value < |permits| && permits[known.value].category == category
    ensures var k := if known.Some? then known.value else |permits|;
            var all := if known.Some? then permits else permits + [Permit(category, owner, weight, Pending, parent)];
            HasRoom(permits, k, category, weight, limit) <==> !OlderPending(all, k) && HeldWeight(all, category) + weight <= limit
  {
    var k := if known.Some? then known.value else |permits|;
    var all := if known.Some? then permits else permits + [Permit(category, owner, weight, Pending, parent)];
    if known.None? { WeightOfWaiting(permits, Permit(category, owner, weight, Pending, parent), category); }
    assert forall j :: 0 <= j < k ==> all[j] == permits[j];
  }

  lemma CapacityKeepsValid(s: Store, known: Option<nat>, category: string, owner: Token, weight: nat, limit: nat,
                           parent: Option<nat>, parentOwner: Token, policy: nat)
    requires ValidStore(s)
    ensures ValidStore(ReserveCapacity(s, known, category, owner, weight, limit, parent, parentOwner, policy).store)
  {
    ReserveCapacityKeeps(s, known, category, owner, weight, limit, parent, parentOwner, policy);
  }

  // ----- Claim, prepare, dispatch, settle -----

  /** Everything the claim of an operation needs. */
  predicate Claimable(s: Store, r: OpRef, token: Token, limit: nat) {
    && limit >= 1 && HasOp(s, r) && LeaseLive(s, r.w, token)
    && s.workflows[r.w].state == WfRunning && !s.workflows[r.w].cancelRequested
    && Op(s, r).state in {OpCreated, OpFailed} && Op(s, r).admission.None? && DepsDone(s.workflows[r.w], r.i)
    && GlobalAdmissions(s.workflows) < limit && AdmissionCount(s.workflows[r.w].ops) < ParallelLimit(s.workflows[r.w])
  }

  /** A claim hands out a fresh attempt that owns the row; refused, it changes nothing. */
  lemma ClaimMeaning(s: Store, r: OpRef, token: Token, limit: nat)
    ensures var t := ClaimOperation(s, r, token, limit);
            && (t.reply == Ok(Some(s.nextToken)) <==> Claimable(s, r, token, limit))
            && (t.reply.Ok? && t.reply.value.Some? ==> t.reply.value.value == s.nextToken)
            && (!Claimable(s, r, token, limit) ==> t.store == s)
            && (Claimable(s, r, token, limit) ==>
                  && t.store.nextToken == s.nextToken + 1
                  && OnlyRow(s, t.store.(nextToken := s.nextToken), r)
                  && Owns(t.store, r, Op(s, r).version + 1, s.nextToken, token)
                  && Op(t.store, r).state == Op(s, r).state && Op(t.store, r).phase == Reserved)
  {
    if Claimable(s, r, token, limit) { PutOpIsOnlyRow(s, r, Op(ClaimOperation(s, r, token, limit).store, r)); }
  }

  lemma ClaimKeepsValid(s: Store, r: OpRef, token: Token, limit: nat)
    requires ValidStore(s) && Uncrossed(s, r)
    ensures ValidStore(ClaimOperation(s, r, token, limit).store)
  {
    ClaimKeeps(s, r, token, limit);
  }

  /** Prepare and dispatch succeed exactly for the owner of an uncancelled workflow, and the version they answer is the
      one that its next call must carry. */
  lemma PrepareMeaning(s: Store, r: OpRef, version: nat, attempt: Token, token: Token)
    ensures var t := PrepareAttempt(s, r, version, attempt, token);
            && (t.reply.Ok? <==> Owns(s, r, version, attempt, token) && !CancelWon(s.workflows[r.w]))
            && (t.reply == Raised(CancelledBeforeDispatch) <==> Owns(s, r, version, attempt, token) && CancelWon(s.workflows[r.w]))
            && (t.reply.Raised? ==> t.store == s)
            && (t.reply.Ok? ==>
                  && OnlyRow(s, t.store, r) && Owns(t.store, r, t.reply.value, attempt, token)
                  && Op(t.store, r).phase == Prepared && Op(t.store, r).state == Op(s, r).state)
  {
    if Owns(s, r, version, attempt, token) { PutOpIsOnlyRow(s, r, Op(s, r).(phase := Prepared, version := version + 1)); }
  }

  lemma PrepareKeepsValid(s: Store, r: OpRef, version: nat, attempt: Token, token: Token)
    requires ValidStore(s) && Uncrossed(s, r)
    ensures ValidStore(PrepareAttempt(s, r, version, attempt, token).store)
  {
    PrepareKeeps(s, r, version, attempt, token);
  }

  lemma DispatchMeaning(s: Store, r: OpRef, version: nat, attempt: Token, token: Token)
    ensures var t := MarkMayDispatch(s, r, version, attempt, token);
            && (t.reply.Ok? <==> Owns(s, r, version, attempt, token) && !CancelWon(s.workflows[r.w]))
            && (t.reply == Raised(CancelledBeforeDispatch) <==> Owns(s, r, version, attempt, token) && CancelWon(s.workflows[r.w]))
            && (t.reply.Raised? ==> t.store == s)
            && (t.reply.Ok? ==>
                  && OnlyRow(s, t.store.(dispatches := s.dispatches), r) && t.store.dispatches == s.dispatches + [r]
                  && Owns(t.store, r, t.reply.value, attempt, token)
                  && Op(t.store, r).phase == MayDispatch && Op(t.store, r).state == OpRunning && Op(t.store, r).started
                  && Op(t.store, r).attempts == Op(s, r).attempts + 1)
  {
    if Owns(s, r, version, attempt, token) && !CancelWon(s.workflows[r.w]) {
      PutOpIsOnlyRow(s, r, Op(MarkMayDispatch(s, r, version, attempt, token).store, r));
    }
  }

  /** An effect that had not crossed crosses once. */
  lemma DispatchKeepsValid(s: Store, r: OpRef, version: nat, attempt: Token, token: Token)
    requires ValidStore(s) && Uncrossed(s, r)
    ensures var s' := MarkMayDispatch(s, r, version, attempt, token).store;
            ValidStore(s') && (HasOp(s', r) && Effectful(Op(s', r).action) ==> Crossings(s', r) <= 1)
  {
    DispatchKeeps(s, r, version, attempt, token);
    assert OpOk(MarkMayDispatch(s, r, version, attempt, token).store, r);
  }

  ghost predicate ChildrenReleased(s: Store, k: nat) {
    forall c :: 0 <= c < |s.permits| && s.permits[c].parent == Some(k) ==> s.permits[c].state == Released
  }

  /** No request of the attempt is quarantined and all its child permits are released. */
  ghost predicate OwnershipSettled(s: Store, r: OpRef, attempt: Token) {
    forall k :: 0 <= k < |s.requests| && s.requests[k].op == Some(r) && s.requests[k].attempt == Some(attempt)
      ==> s.requests[k].state != Quarantined && ChildrenReleased(s, k)
  }

  lemma OwnershipSettledIff(s: Store, r: OpRef, attempt: Token)
    ensures OwnershipUnresolved(s, r, attempt) <==> !OwnershipSettled(s, r, attempt)
  {
    if !OwnershipSettled(s, r, attempt) {
      var k :| 0 <= k < |s.requests| && s.requests[k].op == Some(r) && s.requests[k].attempt == Some(attempt)
               && !(s.requests[k].state != Quarantined && ChildrenReleased(s, k));
      assert s.requests[k].state == Quarantined || HasLiveChild(s.permits, k);
    }
  }

  /** What an attempt may ask to be recorded: a transition of the table, or giving up before the dispatch. */
  predicate Recordable(op: Operation, final: OperationState) {
    && final in {OpSucceeded, OpFailed, OpUncertain, OpCancelled}
    && (OperationMay(op.state, final)
        || (op.state in {OpCreated, OpFailed} && op.phase in {Reserved, Prepared} && final in {OpFailed, OpCancelled}))
  }

  /** Settling succeeds exactly for the owner and a recordable state; it records what was asked unless ownership below the
      attempt is unresolved; afterwards the attempt owns nothing at any version. */
  lemma CompleteMeaning(s: Store, r: OpRef, version: nat, attempt: Token, token: Token,
                        final: OperationState, evidence: Phase, retrySafe: bool, error: string)
    ensures var t := CompleteAttempt(s, r, version, attempt, token, final, evidence, retrySafe, error);
            && (t.reply.Ok? <==> Owns(s, r, version, attempt, token) && Recordable(Op(s, r), final))
            && (t.reply.Raised? ==> t.store == s)
            && (t.reply.Ok? ==>
                  && t.reply.value == (if OwnershipSettled(s, r, attempt) then final else OpUncertain)
                  && OnlyRow(s, t.store, r) && Op(t.store, r).state == t.reply.value && Op(t.store, r).phase == Settled
                  && Op(t.store, r).evidence == evidence && Op(t.store, r).admission.None?
                  && forall v, k :: !Owns(t.store, r, v, attempt, k))
  {
    OwnershipSettledIff(s, r, attempt);
    var t := CompleteAttempt(s, r, version, attempt, token, final, evidence, retrySafe, error);
    if t.reply.Ok? { PutOpIsOnlyRow(s, r, Op(t.store, r)); }
  }

  /** The evidence does not claim that a crossed effect was not dispatched. */
  ghost predicate HonestEvidence(s: Store, r: OpRef, final: OperationState, evidence: Phase) {
    final == OpFailed && !Uncrossed(s, r) ==> evidence !in {Reserved, Prepared, PreflightRejected}
  }

  lemma CompleteKeepsValid(s: Store, r: OpRef, version: nat, attempt: Token, token: Token,
                           final: OperationState, evidence: Phase, retrySafe: bool, error: string)
    requires ValidStore(s) && HonestEvidence(s, r, final, evidence)
    ensures ValidStore(CompleteAttempt(s, r, version, attempt, token, final, evidence, retrySafe, error).store)
  {
    CompleteKeeps(s, r, version, attempt, token, final, evidence, retrySafe, error);
  }

  lemma ContextMeaning(s: Store, r: OpRef, token: Token, ext: bool)
    ensures var t := UpdateContext(s, r, token, ext);
            && (t.reply.Ok? <==> HasOp(s, r) && Op(s, r).state in {OpRunning, OpWaiting} && LeaseLive(s, r.w, token))
            && (t.reply.Raised? ==> t.store == s)
            && (t.reply.Ok? ==> OnlyRow(s, t.store, r))
            && (ValidStore(s) ==> ValidStore(t.store))
  {
    var t := UpdateContext(s, r, token, ext);
    if t.reply.Ok? { PutOpIsOnlyRow(s, r, Op(t.store, r)); }
    if ValidStore(s) { ContextKeeps(s, r, token, ext); }
  }

  // ----- Leases -----

  /** An acquisition is refused exactly while someone else holds a live lease. A new lease fences every earlier token. */
  lemma AcquireMeaning(s: Store, w: nat, owner: nat, ttl: nat, reentry: bool)
    ensures var t := AcquireLease(s, w, owner, ttl, reentry);
            && (t.reply == Raised(AlreadyClaimed) <==>
                  w < |s.workflows| && s.workflows[w].lease.Some? && s.now < s.workflows[w].lease.value.expires
                  && !(reentry && s.workflows[w].lease.value.owner == owner))
            && (t.reply.Raised? ==> t.store == s)
            && (t.reply.Ok? ==>
                  && w < |t.store.workflows| && t.store.workflows[w].lease.Some? && t.store.workflows[w].lease.value.owner == owner
                  && t.store.workflows[w].lease.value.token == t.reply.value
                  && (ttl > 0 ==> LeaseLive(t.store, w, t.reply.value)))
            && (t.reply.Ok? && t.store != s ==>
                  && t.reply.value == s.nextToken && OnlyWorkflow(s, t.store.(nextToken := s.nextToken), w)
                  && forall token: Token :: token < s.nextToken ==> !LeaseLive(t.store, w, token))
            && (ValidStore(s) ==> ValidStore(t.store))
  {
    if ValidStore(s) { LeasesKeep(s, w, owner, ttl, reentry, 0); }
  }

  /** Only the exact unexpired lease is renewed, and nothing but its expiry changes. */
  lemma RenewMeaning(s: Store, w: nat, token: Token, ttl: nat)
    ensures var t := RenewLease(s, w, token, ttl);
            && (t.reply.Ok? <==> LeaseLive(s, w, token))
            && (t.reply.Raised? ==> t.store == s)
            && (t.reply.Ok? ==>
                  && OnlyWorkflow(s, t.store, w)
                  && t.store.workflows[w] == s.workflows[w].(lease := Some(s.workflows[w].lease.value.(expires := s.now + ttl)))
                  && (ttl > 0 ==> LeaseLive(t.store, w, token)))
            && (ValidStore(s) ==> ValidStore(t.store))
  {
    if ValidStore(s) { LeasesKeep(s, w, 0, ttl, false, token); }
  }

  // ----- Cancellation -----

  /** No operation of the workflow can be claimed, prepared or dispatched, whoever asks. */
  ghost predicate AdmitsNoMore(s: Store, w: nat) {
    && (forall r: OpRef, token: Token, limit: nat :: r.w == w ==> ClaimOperation(s, r, token, limit).store == s)
    && (forall r: OpRef, v: nat, attempt: Token, token: Token :: r.w == w ==> PrepareAttempt(s, r, v, attempt, token).store == s)
    && (forall r: OpRef, v: nat, attempt: Token, token: Token :: r.w == w ==> MarkMayDispatch(s, r, v, attempt, token).store == s)
  }

  lemma CancelledAdmitsNoMore(s: Store, w: nat)
    requires w < |s.workflows| && s.workflows[w].cancelRequested
    ensures AdmitsNoMore(s, w)
  {
  }

  /** A cancel of the current version is always accepted: it is recorded unless the workflow is over or already
      cancelling, and once recorded nothing of the workflow can be claimed, prepared or dispatched. */
  lemma CancelMeaning(s: Store, w: nat, version: nat)
    ensures var t := RequestCancel(s, w, version);
            && (t.reply.Ok? <==> w < |s.workflows| && s.workflows[w].version == version)
            && (t.reply.Raised? ==> t.store == s)
            && (t.reply.Ok? ==>
                  && OnlyWorkflow(s, t.store, w)
                  && (s.workflows[w].state in {WfCompleted, WfCancelled, WfCancelling} ==> t.store == s)
                  && (s.workflows[w].state !in {WfCompleted, WfCancelled, WfCancelling} ==>
                        && t.store.workflows[w].cancelRequested && t.store.workflows[w].version == version + 1
                        && t.store.workflows[w].state == if s.workflows[w].state == WfRunning then WfCancelling else WfCancelled)
                  && (t.store.workflows[w].cancelRequested ==> AdmitsNoMore(t.store, w)))
            && (ValidStore(s) ==> ValidStore(t.store))
  {
    var s' := RequestCancel(s, w, version).store;
    if w < |s'.workflows| && s'.workflows[w].cancelRequested { CancelledAdmitsNoMore(s', w); }
    if ValidStore(s) { CancelKeeps(s, w, version); }
  }

  // ----- Aggregates and resolutions -----

  lemma RecomputeKeepsValid(s: Store, w: nat, token: Token, reason: string, keep: bool)
    requires ValidStore(s)
    ensures ValidStore(Recompute(s, w, token, reason, keep).store)
  {
    RecomputeKeeps(s, w, token, reason, keep);
  }

  lemma TransitionKeepsValid(s: Store, w: nat, version: nat, target: WorkflowState, lease: Option<Token>, note: Note)
    requires ValidStore(s)
    ensures ValidStore(Transition(s, w, version, target, lease, note).store)
  {
    TransitionKeeps(s, w, version, target, lease, note);
  }

  lemma ResolveKeepsValid(s: Store, r: OpRef, version: nat, final: OperationState)
    requires ValidStore(s)
    ensures ValidStore(ResolveUncertain(s, r, version, final).store)
  {
    ResolveKeeps(s, r, version, final);
  }

  // ----- What recovery leaves active -----

  ghost predicate HasQuarantined(s: Store, r: OpRef) {
    exists k :: 0 <= k < |s.requests| && s.requests[k].op == Some(r) && s.requests[k].state == Quarantined
  }

  /** After recovery an operation still counts as active exactly when it was admitted, could simply be forgotten, and
      has a request that was quarantined before. */
  lemma RecoveredActiveIff(s: Store, r: OpRef)
    requires HasOp(s, r)
    ensures var op := RecoveredOp(s, r);
            op.admission.Some? && op.state in {OpCreated, OpRunning, OpWaiting} <==>
              Op(s, r).admission.Some? && SafeToForget(s, r) && HasQuarantined(s, r)
  {
    if SafeToForget(s, r) { ForgottenKeepsQuarantined(s, r); }
  }

  lemma ForgottenKeepsQuarantined(s: Store, r: OpRef)
    requires HasOp(s, r) && SafeToForget(s, r)
    ensures HasUnreleasedRequest(RecoveredRequests(s, r.w), r) <==> HasQuarantined(s, r)
  {
    var rows := RecoveredRequests(s, r.w);
    forall k | 0 <= k < |rows| && s.requests[k].op == Some(r) ensures rows[k].state != Released <==> s.requests[k].state == Quarantined {
      assert rows[k] == RecoveredRequest(s, r.w, s.requests[k]);
    }
    if HasQuarantined(s, r) {
      var k :| 0 <= k < |s.requests| && s.requests[k].op == Some(r) && s.requests[k].state == Quarantined;
      assert rows[k].op == Some(r) && rows[k].state != Released;
    }
  }

  /** An admitted operation that recovery would forget, held back by a request that was already quarantined. */
  ghost predicate HeldBack(s: Store, w: nat, i: nat) {
    HasOp(s, OpRef(w, i)) && Op(s, OpRef(w, i)).admission.Some? && SafeToForget(s, OpRef(w, i)) && HasQuarantined(s, OpRef(w, i))
  }

  /** Recovery leaves the running states if and only if no operation is held back. */
  lemma RecoveryStaysActiveIff(s: Store, w: nat)
    requires w < |s.workflows| && NeedsRecovery(s, w)
    ensures Recover(s, w).workflows[w].state in {WfRunning, WfCancelling} <==> exists i: nat :: HeldBack(s, w, i)
  {
    RecoverShape(s, w);
    var ops := Recover(s, w).workflows[w].ops;
    forall i: nat | i < |ops|
      ensures ops[i].admission.Some? && ops[i].state in {OpCreated, OpRunning, OpWaiting} <==> HeldBack(s, w, i)
    {
      RecoveredActiveIff(s, OpRef(w, i));
    }
    assert HasActive(ops) <==> exists i: nat :: HeldBack(s, w, i);
    RecoveredAggregate(s, w);
  }

  lemma RecoveredAggregate(s: Store, w: nat)
    requires w < |s.workflows| && NeedsRecovery(s, w)
    ensures Recover(s, w).workflows[w].state in {WfRunning, WfCancelling} <==> HasActive(Recover(s, w).workflows[w].ops)
  {
  }
}
