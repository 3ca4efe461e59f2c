/** The store invariant of the DAG engine and the relation that every transaction stays within. */
module WorkflowInvariants {
  import opened Prelude
  import opened WorkflowModels
  import opened AdmissionTables
  import opened WorkflowTransactions
  import opened WorkflowSystem

  /** How often an operation has crossed the dispatch barrier. */
  ghost function Crossings(s: Store, r: OpRef): nat { multiset(s.dispatches)[r] }

  ghost predicate LeaseIs(wf: Workflow, token: Token) { wf.lease.Some? && wf.lease.value.token == token }

  ghost predicate WorkflowOk(s: Store, w: nat)
    requires w < |s.workflows|
  {
    var wf := s.workflows[w];
    Shaped(wf) && Acyclic(wf.deps) && (wf.lease.Some? ==> wf.lease.value.token < s.nextToken)
  }

  /** Tokens are old, an admission carries the current attempt, and only unsettled states sit under a live lease. */
  ghost predicate AdmissionOk(s: Store, r: OpRef)
    requires HasOp(s, r)
  {
    var op := Op(s, r);
    && (op.attempt.Some? ==> op.attempt.value < s.nextToken)
    && (op.admission.Some? ==>
          && op.attempt == Some(op.admission.value.attempt)
          && op.admission.value.lease < s.nextToken
          && op.generation > 0
          && (LeaseIs(s.workflows[r.w], op.admission.value.lease) ==> op.state in {OpCreated, OpFailed, OpRunning, OpWaiting}))
  }

  /** An effectful operation that crossed did so once and can be neither requeued nor taken for undispatched. */
  ghost predicate CrossedOnce(s: Store, r: OpRef)
    requires HasOp(s, r)
  {
    var op := Op(s, r);
    Effectful(op.action) && Crossings(s, r) > 0 ==>
      && Crossings(s, r) == 1
      && op.state != OpCreated
      && (op.state in {OpFailed, OpUnresolvable} ==> op.evidence !in {Reserved, Prepared, PreflightRejected})
      && op.phase in {MayDispatch, Settled}
  }

  /** Any trace of execution on the row. */
  predicate Touched(op: Operation) {
    op.state != OpCreated || op.generation > 0 || op.phase != NoPhase || op.started || op.attempts > 0 || op.externalRef
  }

  /** An operation that was ever claimed or has left `created` has all its dependencies done. */
  ghost predicate OrderOk(s: Store, r: OpRef)
    requires HasOp(s, r)
  {
    Touched(Op(s, r)) ==> DepsDone(s.workflows[r.w], r.i)
  }

  ghost predicate OpOk(s: Store, r: OpRef) {
    HasOp(s, r) ==> AdmissionOk(s, r) && CrossedOnce(s, r) && OrderOk(s, r)
  }

  /** Ownership: requests name existing operations; permits hang under requests that were admitted and not yet released. */
  ghost predicate RequestOk(s: Store, k: nat)
    requires k < |s.requests|
  {
    (s.requests[k].op.Some? ==> HasOp(s, s.requests[k].op.value))
    && s.requests[k].owner < s.nextToken && (s.requests[k].attempt.Some? ==> s.requests[k].attempt.value < s.nextToken)
  }

  ghost predicate PermitOk(s: Store, c: nat)
    requires c < |s.permits|
  {
    var p := s.permits[c];
    p.parent.Some? ==>
      && p.parent.value < |s.requests|
      && s.requests[p.parent.value].state != Pending
      && (s.requests[p.parent.value].state == Released ==> p.state == Released)
      && ((s.requests[p.parent.value].op.Some? && HasOp(s, s.requests[p.parent.value].op.value))
            ==> Op(s, s.requests[p.parent.value].op.value).generation > 0)
  }

  ghost predicate WorkflowsOk(s: Store) { forall w :: 0 <= w < |s.workflows| ==> WorkflowOk(s, w) }
  ghost predicate OpsOk(s: Store) { forall r :: OpOk(s, r) }
  ghost predicate RequestsOk(s: Store) { forall k :: 0 <= k < |s.requests| ==> RequestOk(s, k) }
  ghost predicate PermitsOk(s: Store) { forall c :: 0 <= c < |s.permits| ==> PermitOk(s, c) }

  ghost predicate StoreOk(s: Store) {
    WorkflowsOk(s) && OpsOk(s) && RequestsOk(s) && PermitsOk(s)
  }

  // ----- What every transaction keeps, whoever runs it -----

  /** Versions fence rows, done states are final, attempt and lease tokens are never reused. */
  ghost predicate OpEvolves(s: Store, s': Store, r: OpRef) {
    HasOp(s, r) ==>
      && HasOp(s', r)
      && Op(s', r).action == Op(s, r).action
      && Op(s, r).generation <= Op(s', r).generation
      && Op(s, r).version <= Op(s', r).version
      && (Op(s, r).version == Op(s', r).version ==> Op(s', r) == Op(s, r).(admission := Op(s', r).admission))
      && (Done(Op(s, r).state) ==> Op(s', r).state == Op(s, r).state)
      && (Op(s', r).attempt.Some? ==> Op(s', r).attempt == Op(s, r).attempt || Op(s', r).attempt.value >= s.nextToken)
      && (Op(s', r).admission.Some? && Op(s', r).admission != Op(s, r).admission ==>
            Op(s', r).admission.value.attempt >= s.nextToken
            && LeaseIs(s.workflows[r.w], Op(s', r).admission.value.lease))
  }

  ghost predicate WorkflowEvolves(s: Store, s': Store, w: nat) {
    w < |s.workflows| ==>
      && w < |s'.workflows|
      && |s'.workflows[w].ops| == |s.workflows[w].ops|
      && s'.workflows[w].deps == s.workflows[w].deps
      && (s.workflows[w].cancelRequested ==> s'.workflows[w].cancelRequested)
      && (s'.workflows[w].lease.Some? ==>
            (s.workflows[w].lease.Some? && s'.workflows[w].lease.value.token == s.workflows[w].lease.value.token
              && (s.workflows[w].lease.value.expires <= s.now ==> s'.workflows[w].lease == s.workflows[w].lease))
            || s'.workflows[w].lease.value.token >= s.nextToken)
  }

  ghost predicate RequestEvolves(s: Store, s': Store, k: nat) {
    k < |s.requests| ==>
      && k < |s'.requests|
      && s'.requests[k].op == s.requests[k].op && s'.requests[k].claims == s.requests[k].claims
      && s'.requests[k].policy == s.requests[k].policy && s'.requests[k].owner == s.requests[k].owner
      && (s.requests[k].attempt.Some? ==> s'.requests[k].attempt == s.requests[k].attempt)
      && (s.requests[k].state != Pending ==> s'.requests[k].state != Pending)
      && (s.requests[k].state == Released ==> s'.requests[k].state == Released)
  }

  /** A crossing is logged only for an operation admitted under the lease that is current, before any cancel. */
  ghost predicate Crosses(s: Store, s': Store) {
    s'.dispatches == s.dispatches ||
    (s'.dispatches != [] &&
     var r := s'.dispatches[|s'.dispatches| - 1];
     && s'.dispatches == s.dispatches + [r]
     && HasOp(s, r) && Op(s, r).admission.Some?
     && LeaseIs(s.workflows[r.w], Op(s, r).admission.value.lease)
     && !s.workflows[r.w].cancelRequested)
  }

  ghost predicate Evolves(s: Store, s': Store) {
    && s.now <= s'.now && s.nextToken <= s'.nextToken
    && |s.workflows| <= |s'.workflows| && |s.requests| <= |s'.requests| && |s.permits| <= |s'.permits|
    && (forall r :: OpEvolves(s, s', r))
    && (forall w :: WorkflowEvolves(s, s', w))
    && (forall k :: RequestEvolves(s, s', k))
    && Crosses(s, s')
  }

  // ----- Framing -----

  /** Done dependencies stay done. */
  lemma DepsStayDone(s: Store, s': Store, r: OpRef)
    requires HasOp(s, r) && WorkflowOk(s, r.w) && DepsDone(s.workflows[r.w], r.i)
    requires (forall q :: OpEvolves(s, s', q)) && WorkflowEvolves(s, s', r.w)
    ensures HasOp(s', r) && DepsDone(s'.workflows[r.w], r.i)
  {
    forall d | d in s'.workflows[r.w].deps[r.i]
      ensures d < |s'.workflows[r.w].ops| && Done(s'.workflows[r.w].ops[d].state)
    {
      assert OpEvolves(s, s', OpRef(r.w, d));
      assert Op(s, OpRef(r.w, d)).state == s.workflows[r.w].ops[d].state;
    }
  }

  /** An operation row that did not change, or only lost its admission, stays in order. */
  lemma OpFrame(s: Store, s': Store, r: OpRef)
    requires WorkflowsOk(s) && OpOk(s, r) && Evolves(s, s') && HasOp(s, r) && HasOp(s', r)
    requires Op(s', r) == Op(s, r).(admission := Op(s', r).admission)
    requires Op(s', r).admission == Op(s, r).admission || Op(s', r).admission.None?
    requires Crossings(s', r) == Crossings(s, r)
    ensures OpOk(s', r)
  {
    assert WorkflowEvolves(s, s', r.w);
    if DepsDone(s.workflows[r.w], r.i) { DepsStayDone(s, s', r); }
  }

  lemma PermitFrame(s: Store, s': Store, c: nat)
    requires RequestsOk(s) && c < |s.permits| && c < |s'.permits| && PermitOk(s, c) && Evolves(s, s')
    requires s'.permits[c].parent == s.permits[c].parent
    requires s.permits[c].state == Released ==> s'.permits[c].state == Released
    requires s.permits[c].parent.Some? && s'.requests[s.permits[c].parent.value].state == Released
             ==> s'.permits[c].state == Released
    ensures PermitOk(s', c)
  {
    if s.permits[c].parent.Some? {
      var k := s.permits[c].parent.value;
      assert RequestEvolves(s, s', k) && RequestOk(s, k);
      if s.requests[k].op.Some? { assert OpEvolves(s, s', s.requests[k].op.value); }
    }
  }

  lemma RequestFrame(s: Store, s': Store, k: nat)
    requires k < |s.requests| && RequestOk(s, k) && Evolves(s, s')
    requires s'.requests[k].attempt.Some? ==> s'.requests[k].attempt.value < s'.nextToken
    ensures RequestOk(s', k)
  {
    assert RequestEvolves(s, s', k);
    if s.requests[k].op.Some? { assert OpEvolves(s, s', s.requests[k].op.value); }
  }
}
