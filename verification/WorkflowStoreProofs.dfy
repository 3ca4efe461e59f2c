/** Every DAG transaction keeps the store invariant and stays within `Evolves`. */
module WorkflowStoreProofs {
  import opened Prelude
  import opened WorkflowModels
  import opened AdmissionTables
  import opened ResourceClaims
  import opened WorkflowTransactions
  import opened WorkflowSystem
  import opened WorkflowInvariants

  ghost predicate Keeps(s: Store, s': Store) { StoreOk(s') && Evolves(s, s') }

  lemma KeepsItself(s: Store)
    requires StoreOk(s)
    ensures Keeps(s, s)
  {
  }

  // ----- One operation row -----

  lemma PutOpEvolves(s: Store, r: OpRef, op: Operation, token: Token, crossed: bool, s': Store)
    requires StoreOk(s) && HasOp(s, r) && token >= s.nextToken
    requires s' == PutOp(s, r, op).(nextToken := token, dispatches := if crossed then s.dispatches + [r] else s.dispatches)
    requires OpEvolves(s, s', r)
    requires crossed ==> Op(s, r).admission.Some? && LeaseIs(s.workflows[r.w], Op(s, r).admission.value.lease)
                         && !s.workflows[r.w].cancelRequested
    ensures Evolves(s, s')
  {
    forall q ensures OpEvolves(s, s', q) {
      if HasOp(s, q) && q != r { assert Op(s', q) == Op(s, q); }
    }
    if crossed { assert s'.dispatches[|s'.dispatches| - 1] == r; }
  }

  /** The frame of a transaction that rewrites one operation row. */
  lemma PutOpKeeps(s: Store, r: OpRef, op: Operation, token: Token, crossed: bool, s': Store)
    requires StoreOk(s) && HasOp(s, r) && token >= s.nextToken
    requires s' == PutOp(s, r, op).(nextToken := token, dispatches := if crossed then s.dispatches + [r] else s.dispatches)
    requires OpEvolves(s, s', r)
    requires crossed ==> Op(s, r).admission.Some? && LeaseIs(s.workflows[r.w], Op(s, r).admission.value.lease)
                         && !s.workflows[r.w].cancelRequested
    requires AdmissionOk(s', r) && CrossedOnce(s', r)
    requires Touched(op) ==> DepsDone(s.workflows[r.w], r.i)
    ensures Keeps(s, s')
  {
    PutOpEvolves(s, r, op, token, crossed, s');
    assert Op(s', r) == op;
    forall w | 0 <= w < |s'.workflows| ensures WorkflowOk(s', w) { assert WorkflowOk(s, w); }
    forall q ensures OpOk(s', q) {
      if HasOp(s', q) {
        assert HasOp(s, q) && OpOk(s, q);
        if q == r {
          if DepsDone(s.workflows[r.w], r.i) { DepsStayDone(s, s', r); }
        } else {
          assert Op(s', q) == Op(s, q);
          OpFrame(s, s', q);
        }
      }
    }
    forall k | 0 <= k < |s'.requests| ensures RequestOk(s', k) { RequestFrame(s, s', k); }
    forall c | 0 <= c < |s'.permits| ensures PermitOk(s', c) { PermitFrame(s, s', c); }
  }

  lemma ClaimKeeps(s: Store, r: OpRef, token: Token, limit: nat)
    requires StoreOk(s)
    requires HasOp(s, r) && LeaseFault(s, r.w, token).None? && Op(s, r).admission.None? && Effectful(Op(s, r).action)
             ==> Crossings(s, r) == 0
    ensures Keeps(s, ClaimOperation(s, r, token, limit).store)
  {
    var t := ClaimOperation(s, r, token, limit);
    if t.store != s {
      assert OpOk(s, r) && WorkflowOk(s, r.w);
      PutOpKeeps(s, r, Op(t.store, r), s.nextToken + 1, false, t.store);
    }
  }

  lemma PrepareKeeps(s: Store, r: OpRef, version: nat, attempt: Token, token: Token)
    requires StoreOk(s)
    requires HasOp(s, r) && Op(s, r).attempt == Some(attempt) && Effectful(Op(s, r).action) ==> Crossings(s, r) == 0
    ensures Keeps(s, PrepareAttempt(s, r, version, attempt, token).store)
  {
    var t := PrepareAttempt(s, r, version, attempt, token);
    if t.store != s {
      assert OpOk(s, r) && WorkflowOk(s, r.w);
      PutOpKeeps(s, r, Op(t.store, r), s.nextToken, false, t.store);
    }
  }

  lemma DispatchKeeps(s: Store, r: OpRef, version: nat, attempt: Token, token: Token)
    requires StoreOk(s)
    requires HasOp(s, r) && Op(s, r).attempt == Some(attempt) && Effectful(Op(s, r).action) ==> Crossings(s, r) == 0
    ensures Keeps(s, MarkMayDispatch(s, r, version, attempt, token).store)
  {
    var t := MarkMayDispatch(s, r, version, attempt, token);
    if t.store != s {
      assert OpOk(s, r) && WorkflowOk(s, r.w);
      PutOpKeeps(s, r, Op(t.store, r), s.nextToken, true, t.store);
    }
  }

  lemma CompleteKeeps(s: Store, r: OpRef, version: nat, attempt: Token, token: Token,
                      final: OperationState, evidence: Phase, retrySafe: bool, error: string)
    requires StoreOk(s)
    requires final == OpFailed && HasOp(s, r) && Op(s, r).version == version && Effectful(Op(s, r).action)
             ==> Crossings(s, r) == 0 || evidence !in {Reserved, Prepared, PreflightRejected}
    ensures Keeps(s, CompleteAttempt(s, r, version, attempt, token, final, evidence, retrySafe, error).store)
  {
    var t := CompleteAttempt(s, r, version, attempt, token, final, evidence, retrySafe, error);
    if t.store != s {
      assert OpOk(s, r) && WorkflowOk(s, r.w);
      PutOpKeeps(s, r, Op(t.store, r), s.nextToken, false, t.store);
    }
  }

  lemma RejectKeeps(s: Store, r: OpRef, token: Token, error: string)
    requires StoreOk(s)
    requires HasOp(s, r) ==> DepsDone(s.workflows[r.w], r.i)
    ensures Keeps(s, RejectUnadmitted(s, r, token, error).store)
  {
    var t := RejectUnadmitted(s, r, token, error);
    if t.store != s {
      assert OpOk(s, r) && WorkflowOk(s, r.w);
      PutOpKeeps(s, r, Op(t.store, r), s.nextToken, false, t.store);
    }
  }

  lemma ContextKeeps(s: Store, r: OpRef, token: Token, ext: bool)
    requires StoreOk(s)
    ensures Keeps(s, UpdateContext(s, r, token, ext).store)
    ensures Keeps(s, RecordRoute(s, r, token).store)
  {
    var t := UpdateContext(s, r, token, ext);
    if t.store != s {
      assert OpOk(s, r) && WorkflowOk(s, r.w);
      PutOpKeeps(s, r, Op(t.store, r), s.nextToken, false, t.store);
    }
    var u := RecordRoute(s, r, token);
    if u.store != s {
      assert OpOk(s, r) && WorkflowOk(s, r.w);
      PutOpKeeps(s, r, Op(u.store, r), s.nextToken, false, u.store);
    }
  }

  // ----- One workflow row, with any of its operations -----

  /** The frame of a transaction that rewrites a workflow row: operation rows may only lose their admission. */
  lemma PutWorkflowKeeps(s: Store, w: nat, wf: Workflow, token: Token, s': Store)
    requires StoreOk(s) && w < |s.workflows| && token >= s.nextToken
    requires s' == PutWorkflow(s, w, wf).(nextToken := token)
    requires WorkflowEvolves(s, s', w)
    requires wf.lease.Some? ==> wf.lease.value.token < token
    requires OnlyDrops(s.workflows[w].ops, wf.ops)
    ensures Keeps(s, s')
  {
    PutWorkflowEvolves(s, w, wf, token, s');
    forall v | 0 <= v < |s'.workflows| ensures WorkflowOk(s', v) { assert WorkflowOk(s, v); }
    forall q ensures OpOk(s', q) { PutWorkflowOpOk(s, w, wf, token, s', q); }
    forall k | 0 <= k < |s'.requests| ensures RequestOk(s', k) { RequestFrame(s, s', k); }
    forall c | 0 <= c < |s'.permits| ensures PermitOk(s', c) { PermitFrame(s, s', c); }
  }

  /** The operation rows are the same, or have lost their admission. */
  ghost predicate OnlyDrops(ops: seq<Operation>, ops': seq<Operation>) {
    |ops'| == |ops| && forall i :: 0 <= i < |ops| ==> ops'[i] == ops[i] || ops'[i] == ops[i].(admission := None)
  }

  lemma PutWorkflowEvolves(s: Store, w: nat, wf: Workflow, token: Token, s': Store)
    requires StoreOk(s) && w < |s.workflows| && token >= s.nextToken
    requires s' == PutWorkflow(s, w, wf).(nextToken := token) && WorkflowEvolves(s, s', w)
    requires OnlyDrops(s.workflows[w].ops, wf.ops)
    ensures Evolves(s, s')
  {
    assert WorkflowOk(s, w);
    forall q ensures OpEvolves(s, s', q) {
      if HasOp(s, q) && q.w != w { assert Op(s', q) == Op(s, q); }
    }
  }

  lemma PutWorkflowOpOk(s: Store, w: nat, wf: Workflow, token: Token, s': Store, q: OpRef)
    requires StoreOk(s) && w < |s.workflows| && Evolves(s, s')
    requires s' == PutWorkflow(s, w, wf).(nextToken := token) && OnlyDrops(s.workflows[w].ops, wf.ops)
    ensures OpOk(s', q)
  {
    if HasOp(s', q) {
      assert HasOp(s, q) && OpOk(s, q);
      OpFrame(s, s', q);
    }
  }

  lemma LeasesKeep(s: Store, w: nat, owner: nat, ttl: nat, reentry: bool, token: Token)
    requires StoreOk(s)
    ensures Keeps(s, AcquireLease(s, w, owner, ttl, reentry).store)
    ensures Keeps(s, RenewLease(s, w, token, ttl).store)
    ensures Keeps(s, ReleaseLease(s, w, token).store)
  {
    if w < |s.workflows| {
      assert WorkflowOk(s, w);
      var a := AcquireLease(s, w, owner, ttl, reentry).store;
      if a != s { PutWorkflowKeeps(s, w, a.workflows[w], a.nextToken, a); }
      var b := RenewLease(s, w, token, ttl).store;
      if b != s { PutWorkflowKeeps(s, w, b.workflows[w], b.nextToken, b); }
      var c := ReleaseLease(s, w, token).store;
      if c != s { PutWorkflowKeeps(s, w, c.workflows[w], c.nextToken, c); }
    }
  }

  lemma AggregateKeeps(s: Store, w: nat, keep: bool, bump: nat)
    requires StoreOk(s) && w < |s.workflows|
    ensures Keeps(s, Aggregated(s, w, keep, bump))
  {
    assert WorkflowOk(s, w);
    var s' := Aggregated(s, w, keep, bump);
    PutWorkflowKeeps(s, w, s'.workflows[w], s.nextToken, s');
  }

  lemma RecomputeKeeps(s: Store, w: nat, token: Token, reason: string, keep: bool)
    requires StoreOk(s)
    ensures Keeps(s, Recompute(s, w, token, reason, keep).store)
  {
    var s' := Recompute(s, w, token, reason, keep).store;
    if s' != s {
      assert WorkflowOk(s, w);
      assert s' == PutWorkflow(s, w, s'.workflows[w]);
      PutWorkflowKeeps(s, w, s'.workflows[w], s.nextToken, s');
    }
  }

  lemma CancelKeeps(s: Store, w: nat, version: nat)
    requires StoreOk(s)
    ensures Keeps(s, RequestCancel(s, w, version).store)
  {
    var s' := RequestCancel(s, w, version).store;
    if s' != s {
      assert WorkflowOk(s, w);
      PutWorkflowKeeps(s, w, s'.workflows[w], s.nextToken, s');
    }
  }

  // ----- Resume -----

  lemma TransitionKeeps(s: Store, w: nat, version: nat, target: WorkflowState, lease: Option<Token>, note: Note)
    requires StoreOk(s)
    ensures Keeps(s, Transition(s, w, version, target, lease, note).store)
  {
    var s' := Transition(s, w, version, target, lease, note).store;
    if s' != s {
      assert WorkflowOk(s, w);
      var wf, wf' := s.workflows[w], s'.workflows[w];
      if wf'.ops == wf.ops { PutWorkflowKeeps(s, w, wf', s.nextToken, s'); }
      else { RequeueKeeps(s, w, wf', s'); }
    }
  }

  /** A resume rewrites only failed operations that hold no admission and carry proof of no dispatch. */
  lemma RequeueKeeps(s: Store, w: nat, wf': Workflow, s': Store)
    requires StoreOk(s) && w < |s.workflows| && ResumeFault(s, w).None?
    requires s' == PutWorkflow(s, w, wf') && wf'.lease == s.workflows[w].lease && wf'.deps == s.workflows[w].deps
    requires wf'.cancelRequested == s.workflows[w].cancelRequested && |wf'.ops| == |s.workflows[w].ops|
    requires forall i :: 0 <= i < |wf'.ops| ==> wf'.ops[i] == Requeued(s.workflows[w].ops[i])
    ensures Keeps(s, s')
  {
    assert WorkflowOk(s, w);
    forall q ensures OpEvolves(s, s', q) {
      if HasOp(s, q) {
        assert OpOk(s, q);
        if q.w != w { assert Op(s', q) == Op(s, q); } else { assert Op(s', q) == Requeued(Op(s, q)); }
      }
    }
    assert Evolves(s, s');
    forall v | 0 <= v < |s'.workflows| ensures WorkflowOk(s', v) { assert WorkflowOk(s, v); }
    forall q ensures OpOk(s', q) {
      if HasOp(s', q) {
        assert HasOp(s, q) && OpOk(s, q);
        if q.w == w && Op(s, q).state == OpFailed {
          assert s.workflows[w].ops[q.i] == Op(s, q);
          DepsStayDone(s, s', q);
        } else {
          assert Op(s', q) == Op(s, q);
          OpFrame(s, s', q);
        }
      }
    }
    forall k | 0 <= k < |s'.requests| ensures RequestOk(s', k) { RequestFrame(s, s', k); }
    forall c | 0 <= c < |s'.permits| ensures PermitOk(s', c) { PermitFrame(s, s', c); }
  }

  // ----- Reconciliation -----

  lemma EvolvesTransitive(a: Store, b: Store, c: Store)
    requires Evolves(a, b) && Evolves(b, c) && b.dispatches == c.dispatches
    requires forall w :: 0 <= w < |a.workflows| ==> w < |b.workflows| && b.workflows[w].lease == a.workflows[w].lease
    requires a.nextToken == b.nextToken && a.now == b.now
    requires forall r :: HasOp(a, r) && HasOp(b, r) && Op(b, r).admission.Some? ==> Op(b, r).admission == Op(a, r).admission
    ensures Evolves(a, c)
  {
    forall r ensures OpEvolves(a, c, r) { assert OpEvolves(a, b, r) && OpEvolves(b, c, r); }
    forall w ensures WorkflowEvolves(a, c, w) { assert WorkflowEvolves(a, b, w) && WorkflowEvolves(b, c, w); }
    forall k ensures RequestEvolves(a, c, k) { assert RequestEvolves(a, b, k) && RequestEvolves(b, c, k); }
  }

  lemma ResolvedRowOk(s: Store, r: OpRef, final: OperationState, m: Store)
    requires StoreOk(s) && HasOp(s, r) && Op(s, r).state == OpUncertain
    requires final in {OpSucceeded, OpFailed, OpUncertain, OpAcknowledged, OpUnresolvable}
    requires m == PutOp(s, r, ResolvedOp(s, r, final))
    ensures OpEvolves(s, m, r) && AdmissionOk(m, r) && CrossedOnce(m, r)
    ensures Op(m, r).admission in {Op(s, r).admission, None} && DepsDone(s.workflows[r.w], r.i)
  {
    assert OpOk(s, r) && WorkflowOk(s, r.w);
  }

  lemma ResolvedOpKeeps(s: Store, r: OpRef, final: OperationState, m: Store)
    requires StoreOk(s) && HasOp(s, r) && Op(s, r).state == OpUncertain
    requires final in {OpSucceeded, OpFailed, OpUncertain, OpAcknowledged, OpUnresolvable}
    requires m == PutOp(s, r, ResolvedOp(s, r, final))
    ensures Keeps(s, m) && Op(m, r).admission in {Op(s, r).admission, None}
  {
    ResolvedRowOk(s, r, final, m);
    PutOpKeeps(s, r, ResolvedOp(s, r, final), s.nextToken, false, m);
  }

  lemma ResolveKeeps(s: Store, r: OpRef, version: nat, final: OperationState)
    requires StoreOk(s)
    ensures Keeps(s, ResolveUncertain(s, r, version, final).store)
  {
    var s' := ResolveUncertain(s, r, version, final).store;
    if s' != s {
      var m := PutOp(s, r, ResolvedOp(s, r, final));
      ResolvedOpKeeps(s, r, final, m);
      AggregateKeeps(m, r.w, false, if final == OpUncertain then 1 else 2);
      EvolvesTransitive(s, m, s');
    }
  }

  // ----- Request and permit tables -----

  /** The frame of a transaction that touches only the request and permit tables. */
  lemma TablesKeep(s: Store, requests: seq<Request>, permits: seq<Permit>, token: Token, s': Store)
    requires StoreOk(s) && token >= s.nextToken
    requires s' == s.(requests := requests, permits := permits, nextToken := token)
    requires |s.requests| <= |requests| && forall k :: RequestEvolves(s, s', k)
    requires |s.permits| <= |permits|
    requires forall k :: 0 <= k < |requests| ==> RequestOk(s', k)
    requires forall c :: 0 <= c < |permits| ==> PermitOk(s', c)
    ensures Keeps(s, s')
  {
    forall q ensures OpEvolves(s, s', q) { if HasOp(s, q) { assert Op(s', q) == Op(s, q); } }
    assert Evolves(s, s');
    forall w | 0 <= w < |s'.workflows| ensures WorkflowOk(s', w) { assert WorkflowOk(s, w); }
    forall q ensures OpOk(s', q) {
      if HasOp(s', q) {
        assert HasOp(s, q) && OpOk(s, q);
        OpFrame(s, s', q);
      }
    }
  }

  /** A row that only moves forward, and is released only without live children. */
  ghost predicate RowMoves(s: Store, row: Request, k: nat, token: Token)
    requires k < |s.requests|
  {
    var before := s.requests[k];
    && row == before.(state := row.state, attempt := row.attempt)
    && (before.attempt.Some? ==> row.attempt == before.attempt)
    && (row.attempt.Some? ==> row.attempt.value < token)
    && (before.state != Pending ==> row.state != Pending)
    && (before.state == Released ==> row.state == Released)
    && (row.state == Released && HasLiveChild(s.permits, k) ==> before.state in {Pending, Released})
  }

  lemma RequestsMoveKeeps(s: Store, requests: seq<Request>, token: Token)
    requires StoreOk(s) && token >= s.nextToken && |requests| >= |s.requests|
    requires forall k :: 0 <= k < |s.requests| ==> RowMoves(s, requests[k], k, token)
    requires forall k :: |s.requests| <= k < |requests| ==>
               && (requests[k].op.Some? ==> HasOp(s, requests[k].op.value))
               && requests[k].owner < token && requests[k].attempt.None?
    ensures Keeps(s, s.(requests := requests, nextToken := token))
  {
    var s' := s.(requests := requests, nextToken := token);
    forall k | 0 <= k < |requests| ensures RequestOk(s', k) {
      if k < |s.requests| { assert RequestOk(s, k) && RowMoves(s, requests[k], k, token); }
    }
    forall k: nat ensures RequestEvolves(s, s', k) { if k < |s.requests| { assert RowMoves(s, requests[k], k, token); } }
    forall q ensures OpEvolves(s, s', q) { if HasOp(s, q) { assert Op(s', q) == Op(s, q); } }
    assert Evolves(s, s');
    forall c | 0 <= c < |s'.permits| ensures PermitOk(s', c) {
      assert PermitOk(s, c);
      var p := s.permits[c].parent;
      if p.Some? { assert RowMoves(s, requests[p.value], p.value, token); }
      PermitFrame(s, s', c);
    }
    TablesKeep(s, requests, s.permits, token, s');
  }

  lemma ReserveClaimsKeeps(s: Store, known: Option<nat>, op: Option<OpRef>, owner: Token,
                           category: string, claims: set<Claim>, policy: nat, token: Token)
    requires StoreOk(s) && token >= s.nextToken && owner < token
    requires known.Some? ==> known.value < |s.requests|
    requires op.Some? ==> HasOp(s, op.value)
    ensures Keeps(s, s.(requests := ReserveClaims(s.requests, known, op, owner, category, claims, policy).rows, nextToken := token))
  {
    var rows := ReserveClaims(s.requests, known, op, owner, category, claims, policy).rows;
    forall j | 0 <= j < |s.requests| ensures RowMoves(s, rows[j], j, token) { assert RequestOk(s, j); }
    RequestsMoveKeeps(s, rows, token);
  }

  lemma ReleaseRequestKeeps(s: Store, k: nat, owner: Token)
    requires StoreOk(s)
    ensures Keeps(s, s.(requests := ReleaseRequest(s.requests, s.permits, k, owner).0))
  {
    var rows := ReleaseRequest(s.requests, s.permits, k, owner).0;
    forall j | 0 <= j < |s.requests| ensures RowMoves(s, rows[j], j, s.nextToken) { assert RequestOk(s, j); }
    RequestsMoveKeeps(s, rows, s.nextToken);
  }

  lemma QuarantineRequestKeeps(s: Store, k: nat, owner: Token)
    requires StoreOk(s)
    ensures Keeps(s, s.(requests := QuarantineRequest(s.requests, k, owner).0))
  {
    var rows := QuarantineRequest(s.requests, k, owner).0;
    forall j | 0 <= j < |s.requests| ensures RowMoves(s, rows[j], j, s.nextToken) { assert RequestOk(s, j); }
    RequestsMoveKeeps(s, rows, s.nextToken);
  }

  lemma BindKeeps(s: Store, k: nat, owner: Token, attempt: Token)
    requires StoreOk(s) && attempt < s.nextToken
    ensures Keeps(s, s.(requests := BindAttempt(s.requests, k, owner, attempt).0))
  {
    var rows := BindAttempt(s.requests, k, owner, attempt).0;
    forall j | 0 <= j < |s.requests| ensures RowMoves(s, rows[j], j, s.nextToken) { assert RequestOk(s, j); }
    RequestsMoveKeeps(s, rows, s.nextToken);
  }

  lemma ResolveQuarantinedKeeps(s: Store, k: nat, owner: Token)
    requires StoreOk(s)
    ensures Keeps(s, ResolveQuarantined(s, k, owner).store)
  {
    var s' := ResolveQuarantined(s, k, owner).store;
    if s' != s {
      var rows := s.requests[k := s.requests[k].(state := Released)];
      var s1 := s.(requests := rows);
      forall j | 0 <= j < |s.requests| ensures RowMoves(s, rows[j], j, s.nextToken) { assert RequestOk(s, j); }
      RequestsMoveKeeps(s, rows, s.nextToken);
      if s' != s1 {
        var w := s.requests[k].op.value.w;
        assert WorkflowOk(s1, w);
        PutWorkflowKeeps(s1, w, s'.workflows[w], s.nextToken, s');
        EvolvesTransitive(s, s1, s');
      }
    }
  }

  // ----- Permits -----

  /** The frame of a transaction on the permit table: parents are fixed and released permits stay released. */
  lemma PermitsKeep(s: Store, permits: seq<Permit>, token: Token)
    requires StoreOk(s) && token >= s.nextToken && |permits| >= |s.permits|
    requires forall c :: 0 <= c < |s.permits| ==>
               permits[c] == s.permits[c].(state := permits[c].state) && (s.permits[c].state == Released ==> permits[c].state == Released)
    requires forall c :: |s.permits| <= c < |permits| ==> PermitOk(s.(permits := permits), c)
    ensures Keeps(s, s.(permits := permits, nextToken := token))
  {
    var s' := s.(permits := permits, nextToken := token);
    forall q ensures OpEvolves(s, s', q) { if HasOp(s, q) { assert Op(s', q) == Op(s, q); } }
    assert Evolves(s, s');
    forall k | 0 <= k < |s'.requests| ensures RequestOk(s', k) { RequestFrame(s, s', k); }
    forall c | 0 <= c < |permits| ensures PermitOk(s', c) {
      if c < |s.permits| {
        assert PermitOk(s, c);
        PermitFrame(s, s', c);
      } else {
        assert PermitOk(s.(permits := permits), c);
        if permits[c].parent.Some? && s.requests[permits[c].parent.value].op.Some? {
          assert Op(s', s.requests[permits[c].parent.value].op.value) == Op(s, s.requests[permits[c].parent.value].op.value) by {
            assert RequestOk(s, permits[c].parent.value);
          }
        }
      }
    }
    TablesKeep(s, s.requests, permits, token, s');
  }

  /** Reserving a permit moves at most its own row, and a new row hangs under the given parent. */
  lemma ReservedPermits(permits: seq<Permit>, known: Option<nat>, category: string, owner: Token, weight: nat, limit: nat,
                        parent: Option<nat>)
    requires known.Some? ==> known.value < |permits|
    ensures var rows := ReservePermit(permits, known, category, owner, weight, limit, parent).rows;
            && |permits| <= |rows|
            && (forall c :: 0 <= c < |permits| ==>
                  rows[c] == permits[c].(state := rows[c].state) && (permits[c].state == Released ==> rows[c].state == Released))
            && (forall c :: |permits| <= c < |rows| ==> rows[c].parent == parent)
  {
  }

  /** A permit may hang under a request that authorises it. */
  lemma AuthorisedPermit(s: Store, permits: seq<Permit>, c: nat, parentOwner: Token, policy: nat)
    requires StoreOk(s) && c < |permits|
    requires permits[c].parent.Some? ==> Capable(s, permits[c].parent.value, parentOwner, policy)
    ensures PermitOk(s.(permits := permits), c)
  {
    if permits[c].parent.Some? {
      var q := s.requests[permits[c].parent.value].op;
      if q.Some? { assert OpOk(s, q.value); }
    }
  }

  lemma ReserveCapacityKeeps(s: Store, known: Option<nat>, category: string, owner: Token, weight: nat, limit: nat,
                             parent: Option<nat>, parentOwner: Token, policy: nat)
    requires StoreOk(s)
    ensures Keeps(s, ReserveCapacity(s, known, category, owner, weight, limit, parent, parentOwner, policy).store)
  {
    var s' := ReserveCapacity(s, known, category, owner, weight, limit, parent, parentOwner, policy).store;
    if s' == s {
      KeepsItself(s);
    } else {
      ReservedPermits(s.permits, known, category, owner, weight, limit, parent);
      forall c | |s.permits| <= c < |s'.permits| ensures PermitOk(s.(permits := s'.permits), c) {
        AuthorisedPermit(s, s'.permits, c, parentOwner, policy);
      }
      PermitsKeep(s, s'.permits, s.nextToken);
    }
  }

  lemma PermitStatesKeep(s: Store, k: nat, owner: Token, owners: set<Token>)
    requires StoreOk(s)
    ensures Keeps(s, s.(permits := ReleasePermit(s.permits, k, owner).0))
    ensures Keeps(s, s.(permits := ReleaseOwners(s.permits, owners)))
  {
    PermitsKeep(s, ReleasePermit(s.permits, k, owner).0, s.nextToken);
    PermitsKeep(s, ReleaseOwners(s.permits, owners), s.nextToken);
  }

  lemma QuarantinePermitKeeps(s: Store, k: nat, owner: Token)
    requires StoreOk(s)
    ensures var q := QuarantinePermit(s.requests, s.permits, k, owner);
            Keeps(s, s.(requests := q.0, permits := q.1))
  {
    var q := QuarantinePermit(s.requests, s.permits, k, owner);
    var s1 := s.(permits := q.1);
    PermitsKeep(s, q.1, s.nextToken);
    forall j | 0 <= j < |s1.requests| ensures RowMoves(s1, q.0[j], j, s.nextToken) { assert RequestOk(s1, j); }
    RequestsMoveKeeps(s1, q.0, s.nextToken);
    EvolvesTransitive(s, s1, s.(requests := q.0, permits := q.1));
  }

  // ----- Time, creation and recovery -----

  lemma TickKeeps(s: Store, d: nat)
    requires StoreOk(s)
    ensures Keeps(s, s.(now := s.now + d))
  {
    var s' := s.(now := s.now + d);
    forall q ensures OpEvolves(s, s', q) { if HasOp(s, q) { assert Op(s', q) == Op(s, q); } }
    assert Evolves(s, s');
    forall w | 0 <= w < |s'.workflows| ensures WorkflowOk(s', w) { assert WorkflowOk(s, w); }
    forall q ensures OpOk(s', q) { if HasOp(s', q) { assert OpOk(s, q); OpFrame(s, s', q); } }
    forall k | 0 <= k < |s'.requests| ensures RequestOk(s', k) { RequestFrame(s, s', k); }
    forall c | 0 <= c < |s'.permits| ensures PermitOk(s', c) { PermitFrame(s, s', c); }
  }

  lemma AcyclicShaped(deps: seq<set<nat>>)
    requires Acyclic(deps)
    ensures forall i, d :: 0 <= i < |deps| && d in deps[i] ==> d < |deps|
  {
    var rank :| Ranks(rank, deps);
    forall i, d | 0 <= i < |deps| && d in deps[i] ensures d < |deps| { }
  }

  lemma CreateKeeps(s: Store, steps: seq<StepDef>, deps: seq<set<nat>>, maxParallel: nat)
    requires StoreOk(s) && |steps| == |deps| && Acyclic(deps)
    requires forall r :: r in s.dispatches ==> r.w < |s.workflows|
    ensures Keeps(s, s.(workflows := s.workflows + [NewWorkflow(steps, deps, maxParallel)]))
  {
    var wf := NewWorkflow(steps, deps, maxParallel);
    var s' := s.(workflows := s.workflows + [wf]);
    forall q ensures OpEvolves(s, s', q) { if HasOp(s, q) { assert Op(s', q) == Op(s, q); } }
    assert Evolves(s, s');
    forall w | 0 <= w < |s'.workflows| ensures WorkflowOk(s', w) {
      if w < |s.workflows| { assert WorkflowOk(s, w); }
      else {
        AcyclicShaped(deps);
        assert s'.workflows[w] == wf && |wf.ops| == |wf.deps|;
      }
    }
    forall q ensures OpOk(s', q) {
      if HasOp(s', q) {
        if q.w < |s.workflows| { assert HasOp(s, q) && OpOk(s, q); OpFrame(s, s', q); }
        else { assert q !in s.dispatches; }
      }
    }
    forall k | 0 <= k < |s'.requests| ensures RequestOk(s', k) { RequestFrame(s, s', k); }
    forall c | 0 <= c < |s'.permits| ensures PermitOk(s', c) { PermitFrame(s, s', c); }
  }

  /** An operation without any trace is left alone by recovery. */
  lemma RecoveryForgetsUntouched(s: Store, r: OpRef)
    requires StoreOk(s) && HasOp(s, r) && !Touched(Op(s, r))
    ensures SafeToForget(s, r)
  {
    forall c | 0 <= c < |s.permits| && s.permits[c].parent.Some?
      ensures s.permits[c].parent.value < |s.requests| ==> s.requests[s.permits[c].parent.value].op != Some(r)
    {
      assert PermitOk(s, c);
    }
  }

  lemma RecoveredOpOk(s: Store, s': Store, r: OpRef)
    requires StoreOk(s) && HasOp(s, r) && HasOp(s', r) && Evolves(s, s') && s'.dispatches == s.dispatches
    requires Op(s', r) == RecoveredOp(s, r) && s'.workflows[r.w].lease.None?
    ensures OpOk(s', r)
  {
    assert OpOk(s, r) && WorkflowOk(s, r.w);
    if Touched(Op(s, r)) { DepsStayDone(s, s', r); } else { RecoveryForgetsUntouched(s, r); }
  }

  lemma RecoveredOpEvolves(s: Store, s': Store, r: OpRef)
    requires HasOp(s, r) && HasOp(s', r) && Op(s', r) == RecoveredOp(s, r)
    ensures OpEvolves(s, s', r)
  {
  }

  lemma RecoveredRowsMove(s: Store, w: nat, k: nat)
    requires StoreOk(s) && w < |s.workflows| && k < |s.requests|
    ensures RowMoves(s, RecoveredRequests(s, w)[k], k, s.nextToken)
  {
    assert RequestOk(s, k);
    var q := s.requests[k];
    if HasLiveChild(s.permits, k) && q.op.Some? && q.op.value.w == w {
      var c :| 0 <= c < |s.permits| && s.permits[c].parent == Some(k) && s.permits[c].state != Released;
      assert HasChild(s, q.op.value);
    }
  }

  lemma RecoverShape(s: Store, w: nat)
    requires w < |s.workflows| && NeedsRecovery(s, w)
    ensures var s' := Recover(s, w); var wf := s'.workflows[w];
            && s' == PutWorkflow(s, w, wf).(requests := RecoveredRequests(s, w))
            && wf.lease.None? && wf.deps == s.workflows[w].deps && wf.cancelRequested == s.workflows[w].cancelRequested
            && wf.maxParallel == s.workflows[w].maxParallel
            && wf.ops == seq(|s.workflows[w].ops|, i requires 0 <= i < |s.workflows[w].ops| => RecoveredOp(s, OpRef(w, i)))
  {
  }

  lemma RecoveredRequestsKeep(s: Store, w: nat)
    requires StoreOk(s) && w < |s.workflows| && NeedsRecovery(s, w)
    ensures Keeps(s, s.(requests := Recover(s, w).requests))
  {
    RecoverShape(s, w);
    forall k | 0 <= k < |s.requests| ensures RowMoves(s, Recover(s, w).requests[k], k, s.nextToken) { RecoveredRowsMove(s, w, k); }
    RequestsMoveKeeps(s, Recover(s, w).requests, s.nextToken);
  }

  lemma RecoverEvolves(s: Store, w: nat)
    requires StoreOk(s) && w < |s.workflows| && NeedsRecovery(s, w)
    ensures Evolves(s, Recover(s, w))
  {
    var s' := Recover(s, w);
    RecoverShape(s, w);
    var m := s.(requests := s'.requests);
    RecoveredRequestsKeep(s, w);
    forall q ensures OpEvolves(s, s', q) {
      if HasOp(s, q) {
        if q.w != w { assert Op(s', q) == Op(s, q); } else { RecoveredOpEvolves(s, s', q); }
      }
    }
    forall k ensures RequestEvolves(s, s', k) { assert RequestEvolves(s, m, k); }
  }

  lemma RecoveredRowsOk(s: Store, w: nat)
    requires StoreOk(s) && w < |s.workflows| && NeedsRecovery(s, w) && Evolves(s, Recover(s, w))
    ensures WorkflowsOk(Recover(s, w)) && OpsOk(Recover(s, w))
  {
    var s' := Recover(s, w);
    RecoverShape(s, w);
    forall v | 0 <= v < |s'.workflows| ensures WorkflowOk(s', v) { assert WorkflowOk(s, v); }
    forall q ensures OpOk(s', q) {
      if HasOp(s', q) {
        assert HasOp(s, q) && OpOk(s, q);
        if q.w == w { RecoveredOpOk(s, s', q); } else { assert Op(s', q) == Op(s, q); OpFrame(s, s', q); }
      }
    }
  }

  lemma RecoverKeeps(s: Store, w: nat)
    requires StoreOk(s)
    ensures Keeps(s, Recover(s, w))
  {
    if w >= |s.workflows| || !NeedsRecovery(s, w) {
      KeepsItself(s);
    } else {
      var s' := Recover(s, w);
      RecoverShape(s, w);
      RecoverEvolves(s, w);
      RecoveredRowsOk(s, w);
      RecoveredRequestsKeep(s, w);
      forall k | 0 <= k < |s'.requests| ensures RequestOk(s', k) { RequestFrame(s, s', k); }
      forall c | 0 <= c < |s'.permits| ensures PermitOk(s', c) {
        assert PermitOk(s, c) && PermitOk(s.(requests := s'.requests), c);
        PermitFrame(s, s', c);
      }
    }
  }
}
