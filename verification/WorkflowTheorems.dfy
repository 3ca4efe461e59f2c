/** What the DAG engine promises, for every run: any interleaving of coordinators, attempts, operators and crashes. */
module WorkflowTheorems {
  import opened Prelude
  import opened WorkflowModels
  import opened AdmissionTables
  import opened WorkflowTransactions
  import opened WorkflowSystem
  import opened WorkflowInvariants
  import opened WorkflowStoreProofs
  import opened WorkflowSystemProofs
  import opened StoreContracts

  // ----- Runs as histories -----

  /** The store before the first step and after each step of a run. */
  ghost function History(cfg: Config, steps: seq<Step>): (h: seq<Store>)
    ensures |h| == |steps| + 1
    ensures h[|steps|] == Run(cfg, steps).store
  {
    assert steps[..|steps|] == steps;
    seq(|steps| + 1, n requires 0 <= n <= |steps| => Run(cfg, steps[..n]).store)
  }

  ghost predicate Lawful(h: seq<Store>) {
    && (forall n :: 0 <= n < |h| ==> StoreOk(h[n]) && Logged(h[n]))
    && (forall m, n :: 0 <= m < |h| && n == m + 1 && n < |h| ==> Evolves(h[m], h[n]))
  }

  /** Every run is lawful: each state meets the invariant, each step stays within `Evolves`. */
  lemma HistoryIsLawful(cfg: Config, steps: seq<Step>)
    ensures Lawful(History(cfg, steps))
  {
    var h := History(cfg, steps);
    forall n | 0 <= n < |h| ensures StoreOk(h[n]) && Logged(h[n]) { RunOk(cfg, steps[..n]); }
    forall m, n | 0 <= m < |h| && n == m + 1 && n < |h| ensures Evolves(h[m], h[n]) { StepEvolves(cfg, steps, m); }
  }

  lemma StepEvolves(cfg: Config, steps: seq<Step>, m: nat)
    requires m < |steps|
    ensures Evolves(Run(cfg, steps[..m]).store, Run(cfg, steps[..m + 1]).store)
  {
    var p := steps[..m + 1];
    assert p[..|p| - 1] == steps[..m] && p[|p| - 1] == steps[m];
    RunOk(cfg, steps[..m]);
    StepOk(cfg, Run(cfg, steps[..m]), steps[m]);
  }

  /** The event log is append-only. */
  lemma {:induction false} LogGrows(h: seq<Store>, m: nat, n: nat)
    requires Lawful(h) && m <= n < |h|
    ensures h[m].dispatches <= h[n].dispatches
    decreases n
  {
    if m < n {
      LogGrows(h, m, n - 1);
      assert Evolves(h[n - 1], h[n]);
    }
  }

  // ----- At most one crossing -----

  /** An effectful operation crosses the barrier at most once in the lifetime of its workflow. */
  lemma EffectsCrossAtMostOnce(cfg: Config, steps: seq<Step>, r: OpRef)
    requires HasOp(Run(cfg, steps).store, r) && Effectful(Op(Run(cfg, steps).store, r).action)
    ensures Crossings(Run(cfg, steps).store, r) <= 1
  {
    RunOk(cfg, steps);
    assert OpOk(Run(cfg, steps).store, r);
  }

  /** The step from state m to the next makes operation r cross the dispatch barrier. */
  ghost predicate CrossesAt(h: seq<Store>, m: nat, r: OpRef) {
    m + 1 < |h| && h[m + 1].dispatches == h[m].dispatches + [r]
  }

  /** Said of the steps themselves: no two steps of a run dispatch the same effectful operation. */
  lemma NoEffectIsReplayed(cfg: Config, steps: seq<Step>, m: nat, n: nat, r: OpRef)
    requires m < n && CrossesAt(History(cfg, steps), m, r) && CrossesAt(History(cfg, steps), n, r)
    ensures HasOp(History(cfg, steps)[n + 1], r) && !Effectful(Op(History(cfg, steps)[n + 1], r).action)
  {
    var h := History(cfg, steps);
    HistoryIsLawful(cfg, steps);
    TwoCrossings(h, m, n, r);
    assert OpOk(h[n + 1], r) && Logged(h[n + 1]);
    assert r in h[n + 1].dispatches;
  }

  lemma TwoCrossings(h: seq<Store>, m: nat, n: nat, r: OpRef)
    requires Lawful(h) && m < n && CrossesAt(h, m, r) && CrossesAt(h, n, r)
    ensures Crossings(h[n + 1], r) >= 2
  {
    LogGrows(h, m + 1, n);
    var early, late := h[m + 1].dispatches, h[n].dispatches;
    assert late == early + late[|early|..];
    assert multiset(late)[r] >= 1;
  }

  // ----- Lease fencing -----

  /** The token is known and no longer names an unexpired lease of w. */
  ghost predicate Fenced(s: Store, w: nat, token: Token) {
    w < |s.workflows| && token < s.nextToken && LeaseFault(s, w, token).Some?
  }

  lemma FenceHolds(s: Store, s': Store, w: nat, token: Token)
    requires Fenced(s, w, token) && Evolves(s, s')
    ensures Fenced(s', w, token)
  {
    assert WorkflowEvolves(s, s', w);
  }

  lemma {:induction false} FenceIsPermanent(h: seq<Store>, m: nat, n: nat, w: nat, token: Token)
    requires Lawful(h) && m <= n < |h| && Fenced(h[m], w, token)
    ensures Fenced(h[n], w, token)
    decreases n
  {
    if m < n {
      FenceIsPermanent(h, m, n - 1, w, token);
      FenceHolds(h[n - 1], h[n], w, token);
    }
  }

  /** No call that carries a fenced token changes anything. */
  lemma FencedCallsChangeNothing(s: Store, r: OpRef, token: Token, version: nat, attempt: Token, limit: nat)
    requires Fenced(s, r.w, token)
    ensures ClaimOperation(s, r, token, limit).store == s && ClaimOperation(s, r, token, limit).reply != Ok(Some(s.nextToken))
    ensures PrepareAttempt(s, r, version, attempt, token).store == s && PrepareAttempt(s, r, version, attempt, token).reply.Raised?
    ensures MarkMayDispatch(s, r, version, attempt, token).store == s && MarkMayDispatch(s, r, version, attempt, token).reply.Raised?
    ensures forall final, evidence, safe, error ::
              CompleteAttempt(s, r, version, attempt, token, final, evidence, safe, error).store == s
              && CompleteAttempt(s, r, version, attempt, token, final, evidence, safe, error).reply.Raised?
    ensures forall reason, keep :: Recompute(s, r.w, token, reason, keep).store == s && Recompute(s, r.w, token, reason, keep).reply.Raised?
    ensures forall error :: RejectUnadmitted(s, r, token, error).store == s
    ensures forall ext :: UpdateContext(s, r, token, ext).store == s
    ensures RecordRoute(s, r, token).store == s
    ensures forall target, note :: Transition(s, r.w, version, target, Some(token), note).store == s
    ensures forall ttl :: RenewLease(s, r.w, token, ttl).store == s
  {
  }

  /** A lease is fenced by its expiry, by a new owner and by recovery. */
  lemma WhatFences(s: Store, w: nat, token: Token, owner: nat, ttl: nat)
    requires StoreOk(s) && w < |s.workflows| && token < s.nextToken
    ensures s.workflows[w].lease.Some? && s.workflows[w].lease.value.expires <= s.now ==> Fenced(s, w, token)
    ensures AcquireLease(s, w, owner, ttl, false).reply.Ok? ==> Fenced(AcquireLease(s, w, owner, ttl, false).store, w, token)
    ensures NeedsRecovery(s, w) ==> Fenced(Recover(s, w), w, token)
  {
    if NeedsRecovery(s, w) { RecoverShape(s, w); }
  }

  /** Once a lease is lost, nothing its holder does later in the run has any effect. */
  lemma LeaseFencing(cfg: Config, steps: seq<Step>, m: nat, n: nat, r: OpRef, token: Token, version: nat, attempt: Token,
                     limit: nat, final: OperationState, evidence: Phase, flag: bool, text: string, ttl: nat,
                     target: WorkflowState, note: Note)
    requires m <= n <= |steps| && Fenced(History(cfg, steps)[m], r.w, token)
    ensures var s := History(cfg, steps)[n];
            && ClaimOperation(s, r, token, limit).store == s
            && PrepareAttempt(s, r, version, attempt, token).store == s
            && MarkMayDispatch(s, r, version, attempt, token).store == s
            && CompleteAttempt(s, r, version, attempt, token, final, evidence, flag, text).store == s
            && RejectUnadmitted(s, r, token, text).store == s
            && UpdateContext(s, r, token, flag).store == s
            && RecordRoute(s, r, token).store == s
            && Recompute(s, r.w, token, text, flag).store == s
            && Transition(s, r.w, version, target, Some(token), note).store == s
            && RenewLease(s, r.w, token, ttl).store == s
  {
    HistoryIsLawful(cfg, steps);
    FenceIsPermanent(History(cfg, steps), m, n, r.w, token);
    FencedCallsChangeNothing(History(cfg, steps)[n], r, token, version, attempt, limit);
  }

  // ----- Cancellation -----

  ghost predicate CancelCommitted(s: Store, w: nat) { w < |s.workflows| && s.workflows[w].cancelRequested }

  lemma {:induction false} CancelIsPermanent(h: seq<Store>, m: nat, n: nat, w: nat)
    requires Lawful(h) && m <= n < |h| && CancelCommitted(h[m], w)
    ensures CancelCommitted(h[n], w)
    decreases n
  {
    if m < n {
      CancelIsPermanent(h, m, n - 1, w);
      assert Evolves(h[n - 1], h[n]) && WorkflowEvolves(h[n - 1], h[n], w);
    }
  }

  /** A cancelled workflow admits, prepares and dispatches nothing, whatever its current state. */
  lemma CancelledStoreAdmitsNothing(s: Store, r: OpRef, token: Token, version: nat, attempt: Token, limit: nat, keep: bool)
    requires CancelCommitted(s, r.w)
    ensures ClaimOperation(s, r, token, limit).store == s
    ensures PrepareAttempt(s, r, version, attempt, token).store == s
    ensures MarkMayDispatch(s, r, version, attempt, token).store == s
    ensures AggregateState(s, r.w, keep) in {WfCancelling, WfUncertain, WfFailed, WfCancelled}
  {
  }

  /** A committed cancel of a running workflow is recorded. */
  lemma CancelCommits(s: Store, w: nat)
    requires w < |s.workflows| && s.workflows[w].state == WfRunning
    ensures CancelCommitted(RequestCancel(s, w, s.workflows[w].version).store, w)
  {
  }

  lemma {:induction false} NoCrossingAfterCancel(h: seq<Store>, m: nat, n: nat, r: OpRef)
    requires Lawful(h) && m <= n < |h| && CancelCommitted(h[m], r.w)
    ensures Crossings(h[n], r) == Crossings(h[m], r)
    decreases n
  {
    if m < n {
      NoCrossingAfterCancel(h, m, n - 1, r);
      CancelIsPermanent(h, m, n - 1, r.w);
      assert Evolves(h[n - 1], h[n]);
    }
  }

  /** Cancellation is a permanent fence: from then on nothing of the workflow is claimed, prepared or dispatched,
      and every aggregate reports the cancel, an uncertainty or a failure. */
  lemma CancelIsAFence(cfg: Config, steps: seq<Step>, m: nat, n: nat, r: OpRef, token: Token, version: nat,
                       attempt: Token, limit: nat, keep: bool)
    requires m <= n <= |steps| && CancelCommitted(History(cfg, steps)[m], r.w)
    ensures Crossings(History(cfg, steps)[n], r) == Crossings(History(cfg, steps)[m], r)
    ensures var s := History(cfg, steps)[n];
            && CancelCommitted(s, r.w)
            && AggregateState(s, r.w, keep) in {WfCancelling, WfUncertain, WfFailed, WfCancelled}
            && ClaimOperation(s, r, token, limit).store == s
            && PrepareAttempt(s, r, version, attempt, token).store == s
            && MarkMayDispatch(s, r, version, attempt, token).store == s
  {
    var h := History(cfg, steps);
    HistoryIsLawful(cfg, steps);
    NoCrossingAfterCancel(h, m, n, r);
    CancelIsPermanent(h, m, n, r.w);
    CancelledStoreAdmitsNothing(h[n], r, token, version, attempt, limit, keep);
  }

  /** Without cancellation the aggregate is `completed` exactly when everything is done and nothing is held. */
  lemma CompletedMeansDone(s: Store, w: nat, keep: bool)
    requires w < |s.workflows|
    ensures AggregateState(s, w, keep) == WfCompleted <==>
              && !s.workflows[w].cancelRequested && s.workflows[w].ops != []
              && AllDone(s.workflows[w].ops) && !WorkflowHolds(s.requests, w)
  {
  }

  // ----- Dependency order and progress -----

  /** A chain of dependencies from step `path[0]` down to its last step. */
  ghost predicate DependencyPath(deps: seq<set<nat>>, path: seq<nat>) {
    && path != [] && path[0] < |deps|
    && forall k, j :: 0 <= k < |path| && j == k + 1 && j < |path| ==> path[k] < |deps| && path[j] in deps[path[k]]
  }

  /** An operation that has left `created` has every transitive dependency done. */
  lemma {:induction false} DependenciesFirst(s: Store, w: nat, path: seq<nat>, k: nat)
    requires StoreOk(s) && w < |s.workflows| && DependencyPath(s.workflows[w].deps, path) && 0 < k < |path|
    requires path[0] < |s.workflows[w].ops| ==> s.workflows[w].ops[path[0]].state != OpCreated
    ensures path[k] < |s.workflows[w].ops| && Done(s.workflows[w].ops[path[k]].state)
    decreases k
  {
    assert WorkflowOk(s, w);
    var before := path[k - 1];
    if k > 1 { DependenciesFirst(s, w, path, k - 1); }
    assert OpOk(s, OpRef(w, before)) && Op(s, OpRef(w, before)) == s.workflows[w].ops[before];
    assert DepsDone(s.workflows[w], before);
    assert path[k] in s.workflows[w].deps[before];
  }

  lemma {:induction false} DoneIsFinal(h: seq<Store>, m: nat, n: nat, r: OpRef)
    requires Lawful(h) && m <= n < |h| && HasOp(h[m], r) && Done(Op(h[m], r).state)
    ensures HasOp(h[n], r) && Op(h[n], r).state == Op(h[m], r).state
    decreases n
  {
    if m < n {
      DoneIsFinal(h, m, n - 1, r);
      assert Evolves(h[n - 1], h[n]) && OpEvolves(h[n - 1], h[n], r);
    }
  }

  /** In every run: what an operation depends on, however indirectly, was done before it left `created` and stays done. */
  lemma DependencySafety(cfg: Config, steps: seq<Step>, m: nat, n: nat, w: nat, path: seq<nat>, k: nat)
    requires m <= n <= |steps| && w < |History(cfg, steps)[m].workflows|
    requires DependencyPath(History(cfg, steps)[m].workflows[w].deps, path) && 0 < k < |path|
    requires HasOp(History(cfg, steps)[m], OpRef(w, path[0])) && Op(History(cfg, steps)[m], OpRef(w, path[0])).state != OpCreated
    ensures HasOp(History(cfg, steps)[n], OpRef(w, path[k])) && Done(Op(History(cfg, steps)[n], OpRef(w, path[k])).state)
  {
    var h := History(cfg, steps);
    HistoryIsLawful(cfg, steps);
    DependenciesFirst(h[m], w, path, k);
    assert Op(h[m], OpRef(w, path[k])) == h[m].workflows[w].ops[path[k]];
    DoneIsFinal(h, m, n, OpRef(w, path[k]));
  }

  /** Nothing failed, stuck or in flight. */
  ghost predicate Quiescent(wf: Workflow) {
    forall i :: 0 <= i < |wf.ops| ==> wf.ops[i].state in {OpCreated, OpSucceeded, OpAcknowledged} && wf.ops[i].admission.None?
  }

  /** Acyclicity makes progress possible: below any unfinished step some step is ready. */
  lemma {:induction false} SomeStepIsReady(wf: Workflow, rank: seq<nat>, i: nat) returns (j: nat)
    requires Shaped(wf) && Ranks(rank, wf.deps) && Quiescent(wf) && i < |wf.ops| && !Done(wf.ops[i].state)
    ensures j < |wf.ops| && ReadinessOf(wf, j) == Ready
    decreases rank[i]
  {
    if DepsDone(wf, i) {
      j := i;
    } else {
      var d :| d in wf.deps[i] && !(d < |wf.ops| && Done(wf.ops[d].state));
      j := SomeStepIsReady(wf, rank, d);
    }
  }

  lemma Progress(cfg: Config, steps: seq<Step>, w: nat)
    requires w < |Run(cfg, steps).store.workflows|
    requires Quiescent(Run(cfg, steps).store.workflows[w]) && !AllDone(Run(cfg, steps).store.workflows[w].ops)
    ensures exists j :: 0 <= j < |Run(cfg, steps).store.workflows[w].ops| && ReadinessOf(Run(cfg, steps).store.workflows[w], j) == Ready
  {
    RunOk(cfg, steps);
    var wf := Run(cfg, steps).store.workflows[w];
    assert WorkflowOk(Run(cfg, steps).store, w);
    var rank :| Ranks(rank, wf.deps);
    var i :| 0 <= i < |wf.ops| && !Done(wf.ops[i].state);
    var j := SomeStepIsReady(wf, rank, i);
  }

  // ----- Ownership tree -----

  /** A released request has no unreleased child permit, in every reachable state. */
  lemma ReleasedRequestsHaveNoLiveChild(cfg: Config, steps: seq<Step>, k: nat)
    requires k < |Run(cfg, steps).store.requests| && Run(cfg, steps).store.requests[k].state == Released
    ensures !HasLiveChild(Run(cfg, steps).store.permits, k)
  {
    RunOk(cfg, steps);
    var s := Run(cfg, steps).store;
    forall c | 0 <= c < |s.permits| && s.permits[c].parent == Some(k) ensures s.permits[c].state == Released {
      assert PermitOk(s, c);
    }
  }

  /** An attempt settles as anything but uncertain exactly when it asked to and its ownership is resolved. */
  lemma SettlementNeedsOwnership(s: Store, r: OpRef, version: nat, attempt: Token, token: Token,
                                 final: OperationState, evidence: Phase, safe: bool, error: string)
    requires CompleteAttempt(s, r, version, attempt, token, final, evidence, safe, error).reply.Ok?
    ensures var st := CompleteAttempt(s, r, version, attempt, token, final, evidence, safe, error).reply.value;
            && (st != OpUncertain <==> final != OpUncertain && OwnershipSettled(s, r, attempt))
            && (st != OpUncertain ==> st == final)
  {
    OwnershipSettledIff(s, r, attempt);
  }

  /** The attempt no longer holds the admission of its operation. */
  ghost predicate Spent(s: Store, r: OpRef, attempt: Token) {
    && HasOp(s, r) && attempt < s.nextToken
    && (Op(s, r).admission.Some? ==> Op(s, r).admission.value.attempt != attempt)
  }

  lemma {:induction false} SpentForever(h: seq<Store>, m: nat, n: nat, r: OpRef, attempt: Token)
    requires Lawful(h) && m <= n < |h| && Spent(h[m], r, attempt)
    ensures Spent(h[n], r, attempt)
    decreases n
  {
    if m < n {
      SpentForever(h, m, n - 1, r, attempt);
      assert Evolves(h[n - 1], h[n]) && OpEvolves(h[n - 1], h[n], r);
    }
  }

  /** The arguments of a settlement besides the operation and the attempt. */
  datatype Settlement = Settlement(version: nat, token: Token, final: OperationState, evidence: Phase, safe: bool, error: string)

  function SettleWith(s: Store, r: OpRef, attempt: Token, c: Settlement): Tx<OperationState> {
    CompleteAttempt(s, r, c.version, attempt, c.token, c.final, c.evidence, c.safe, c.error)
  }

  ghost predicate SettlesBetween(s: Store, s': Store, r: OpRef, attempt: Token) {
    exists c :: SettleWith(s, r, attempt, c).reply.Ok? && s' == SettleWith(s, r, attempt, c).store
  }

  /** Step m of the run settles the attempt. */
  ghost predicate SettlesAt(h: seq<Store>, m: nat, r: OpRef, attempt: Token) {
    m + 1 < |h| && SettlesBetween(h[m], h[m + 1], r, attempt)
  }

  /** After settlement no child permit can be created under the attempt's request, for the rest of the run. */
  lemma NoPermitAfterSettlement(cfg: Config, steps: seq<Step>, m: nat, n: nat, r: OpRef, attempt: Token, k: nat,
                                known: Option<nat>, category: string, owner: Token, weight: nat, limit: nat,
                                parentOwner: Token, policy: nat)
    requires m < n <= |steps| && SettlesAt(History(cfg, steps), m, r, attempt)
    requires k < |History(cfg, steps)[n].requests|
    requires History(cfg, steps)[n].requests[k].op == Some(r) && History(cfg, steps)[n].requests[k].attempt == Some(attempt)
    ensures var s := History(cfg, steps)[n];
            ReserveCapacity(s, known, category, owner, weight, limit, Some(k), parentOwner, policy)
              == Tx(s, Raised(if 1 <= weight <= limit then ResourceCapabilityInvalid else InvalidCapacityRequest))
  {
    var h := History(cfg, steps);
    HistoryIsLawful(cfg, steps);
    SettledStaysSpent(h, m, n, r, attempt);
    assert !Capable(h[n], k, parentOwner, policy);
  }

  lemma SettlementSpends(s: Store, r: OpRef, attempt: Token, c: Settlement)
    requires StoreOk(s) && SettleWith(s, r, attempt, c).reply.Ok?
    ensures Spent(SettleWith(s, r, attempt, c).store, r, attempt)
  {
    assert OpOk(s, r);
  }

  lemma SettledIsSpent(s: Store, s': Store, r: OpRef, attempt: Token)
    requires StoreOk(s) && SettlesBetween(s, s', r, attempt)
    ensures Spent(s', r, attempt)
  {
    var c :| SettleWith(s, r, attempt, c).reply.Ok? && s' == SettleWith(s, r, attempt, c).store;
    SettlementSpends(s, r, attempt, c);
  }

  lemma SettledStaysSpent(h: seq<Store>, m: nat, n: nat, r: OpRef, attempt: Token)
    requires Lawful(h) && m < n < |h| && SettlesAt(h, m, r, attempt)
    ensures Spent(h[n], r, attempt)
  {
    SettledIsSpent(h[m], h[m + 1], r, attempt);
    SpentForever(h, m + 1, n, r, attempt);
  }
}
