/** Parallelism: in every run the admitted executions stay within the limit of their workflow and the global limit. */
module AdmissionLimits {
  import opened Prelude
  import opened WorkflowModels
  import opened AdmissionTables
  import opened WorkflowTransactions
  import opened WorkflowSystem
  import opened WorkflowStoreProofs
  import opened StoreContracts
  import opened WorkflowTheorems

  // ----- Counting admissions -----

  lemma {:induction false} FewerAdmissions(a: seq<Operation>, b: seq<Operation>)
    requires |a| == |b| && forall i :: 0 <= i < |a| ==> b[i].admission.Some? ==> a[i].admission.Some?
    ensures AdmissionCount(b) <= AdmissionCount(a)
  {
    if a != [] { FewerAdmissions(a[..|a| - 1], b[..|b| - 1]); }
  }

  lemma {:induction false} OneMoreAdmission(ops: seq<Operation>, i: nat, op: Operation)
    requires i < |ops| && ops[i].admission.None?
    ensures AdmissionCount(ops[i := op]) == AdmissionCount(ops) + (if op.admission.Some? then 1 else 0)
  {
    var n := |ops| - 1;
    if i == n { assert ops[i := op][..n] == ops[..n]; }
    else {
      OneMoreAdmission(ops[..n], i, op);
      assert ops[i := op][..n] == ops[..n][i := op];
    }
  }

  lemma {:induction false} GlobalUpdate(ws: seq<Workflow>, w: nat, wf: Workflow)
    requires w < |ws|
    ensures GlobalAdmissions(ws[w := wf]) + AdmissionCount(ws[w].ops) == GlobalAdmissions(ws) + AdmissionCount(wf.ops)
  {
    var n := |ws| - 1;
    if w == n { assert ws[w := wf][..n] == ws[..n]; }
    else {
      GlobalUpdate(ws[..n], w, wf);
      assert ws[w := wf][..n] == ws[..n][w := wf];
    }
  }

  lemma {:induction false} GlobalShrinks(a: seq<Workflow>, b: seq<Workflow>)
    requires |a| <= |b| && forall w :: 0 <= w < |b| ==> AdmissionCount(b[w].ops) <= if w < |a| then AdmissionCount(a[w].ops) else 0
    ensures GlobalAdmissions(b) <= GlobalAdmissions(a)
    decreases |b|
  {
    if |a| < |b| { GlobalShrinks(a, b[..|b| - 1]); }
    else if a != [] { GlobalShrinks(a[..|a| - 1], b[..|b| - 1]); }
  }

  // ----- Steps that admit nothing -----

  ghost predicate Quieter(wf: Workflow, wf': Workflow) {
    && wf'.maxParallel == wf.maxParallel && |wf'.ops| == |wf.ops|
    && forall i :: 0 <= i < |wf.ops| ==> wf'.ops[i].admission.Some? ==> wf.ops[i].admission.Some?
  }

  ghost predicate Unadmitted(wf: Workflow) { forall i :: 0 <= i < |wf.ops| ==> wf.ops[i].admission.None? }

  /** No operation is admitted and no limit changes. */
  ghost predicate AdmitsNothing(s: Store, s': Store) {
    && |s.workflows| <= |s'.workflows|
    && (forall w :: 0 <= w < |s.workflows| ==> Quieter(s.workflows[w], s'.workflows[w]))
    && (forall w :: |s.workflows| <= w < |s'.workflows| ==> Unadmitted(s'.workflows[w]))
  }

  lemma PutIsQuiet(s: Store, w: nat, wf: Workflow, s': Store)
    requires w < |s.workflows| && Quieter(s.workflows[w], wf) && s'.workflows == s.workflows[w := wf]
    ensures AdmitsNothing(s, s')
  {
  }

  lemma SameWorkflows(s: Store, s': Store)
    requires s'.workflows == s.workflows
    ensures AdmitsNothing(s, s')
  {
  }

  lemma OperatorQuiet(s: Store, w: nat, version: nat, target: WorkflowState, lease: Option<Token>, note: Note)
    ensures AdmitsNothing(s, Transition(s, w, version, target, lease, note).store)
    ensures AdmitsNothing(s, RequestCancel(s, w, version).store)
  {
    var a, b := Transition(s, w, version, target, lease, note).store, RequestCancel(s, w, version).store;
    if a == s { SameWorkflows(s, a); } else { PutIsQuiet(s, w, a.workflows[w], a); }
    if b == s { SameWorkflows(s, b); } else { PutIsQuiet(s, w, b.workflows[w], b); }
  }

  lemma ResolveQuiet(s: Store, r: OpRef, version: nat, final: OperationState)
    ensures AdmitsNothing(s, ResolveUncertain(s, r, version, final).store)
  {
    var s' := ResolveUncertain(s, r, version, final).store;
    if s' == s { SameWorkflows(s, s'); } else { PutIsQuiet(s, r.w, s'.workflows[r.w], s'); }
  }

  lemma ReleaseQuiet(s: Store, k: nat, owner: Token)
    ensures AdmitsNothing(s, ResolveQuarantined(s, k, owner).store)
  {
    var s' := ResolveQuarantined(s, k, owner).store;
    if s'.workflows == s.workflows { SameWorkflows(s, s'); }
    else { PutIsQuiet(s, s.requests[k].op.value.w, s'.workflows[s.requests[k].op.value.w], s'); }
  }

  lemma RecoveredIsQuieter(s: Store, w: nat, wf: Workflow)
    requires w < |s.workflows| && wf.maxParallel == s.workflows[w].maxParallel
    requires wf.ops == seq(|s.workflows[w].ops|, i requires 0 <= i < |s.workflows[w].ops| => RecoveredOp(s, OpRef(w, i)))
    ensures Quieter(s.workflows[w], wf)
  {
    forall i | 0 <= i < |s.workflows[w].ops| ensures wf.ops[i].admission.Some? ==> s.workflows[w].ops[i].admission.Some? {
      RecoveredAdmission(s, OpRef(w, i));
    }
  }

  lemma RecoveredAdmission(s: Store, r: OpRef)
    requires HasOp(s, r)
    ensures RecoveredOp(s, r).admission.Some? ==> Op(s, r).admission.Some?
  {
  }

  lemma RecoverQuiet(s: Store, w: nat)
    ensures AdmitsNothing(s, Recover(s, w))
  {
    if w >= |s.workflows| || !NeedsRecovery(s, w) {
      SameWorkflows(s, Recover(s, w));
    } else {
      RecoverShape(s, w);
      RecoveredIsQuieter(s, w, Recover(s, w).workflows[w]);
      PutIsQuiet(s, w, Recover(s, w).workflows[w], Recover(s, w));
    }
  }

  lemma EnvironmentQuiet(sys: System, step: Step)
    requires OperatorStep(step)
    ensures AdmitsNothing(sys.store, Environment(sys, step).store)
  {
    var s := sys.store;
    match step
    case Tick(_) => SameWorkflows(s, Environment(sys, step).store);
    case Create(_, _, _) =>
    case Move(w, version, target, note) => OperatorQuiet(s, w, version, target, None, note);
    case Cancel(w, version) => OperatorQuiet(s, w, version, WfQueued, None, NO_NOTE);
    case RecoverStep(w) => RecoverQuiet(s, w);
    case Resolve(r, version, final) => ResolveQuiet(s, r, version, final);
    case ResolveRequest(k) =>
      if k < |s.requests| { ReleaseQuiet(s, k, s.requests[k].owner); } else { SameWorkflows(s, s); }
  }

  /** A write to one operation row that does not admit it. */
  lemma OpIsQuiet(s: Store, r: OpRef, s': Store)
    requires s' == s ||
             (HasOp(s, r) && exists op :: s'.workflows == PutOp(s, r, op).workflows && (op.admission.Some? ==> Op(s, r).admission.Some?))
    ensures AdmitsNothing(s, s')
  {
    if s' == s { SameWorkflows(s, s'); }
    else {
      var op :| s'.workflows == PutOp(s, r, op).workflows && (op.admission.Some? ==> Op(s, r).admission.Some?);
      PutIsQuiet(s, r.w, s'.workflows[r.w], s');
    }
  }

  lemma AttemptQuiet(s: Store, r: OpRef, version: nat, t: Token, lease: Token)
    ensures AdmitsNothing(s, PrepareAttempt(s, r, version, t, lease).store)
    ensures AdmitsNothing(s, MarkMayDispatch(s, r, version, t, lease).store)
  {
    var a, b := PrepareAttempt(s, r, version, t, lease).store, MarkMayDispatch(s, r, version, t, lease).store;
    if a != s { assert a.workflows == PutOp(s, r, Op(a, r)).workflows; }
    if b != s { assert b.workflows == PutOp(s, r, Op(b, r)).workflows; }
    OpIsQuiet(s, r, a);
    OpIsQuiet(s, r, b);
  }

  lemma CompleteQuiet(s: Store, r: OpRef, version: nat, t: Token, lease: Token,
                      final: OperationState, evidence: Phase, safe: bool, error: string)
    ensures AdmitsNothing(s, CompleteAttempt(s, r, version, t, lease, final, evidence, safe, error).store)
  {
    var a := CompleteAttempt(s, r, version, t, lease, final, evidence, safe, error).store;
    if a != s { assert a.workflows == PutOp(s, r, Op(a, r)).workflows; }
    OpIsQuiet(s, r, a);
  }

  lemma ContextQuiet(s: Store, r: OpRef, lease: Token, ext: bool, error: string)
    ensures AdmitsNothing(s, UpdateContext(s, r, lease, ext).store)
    ensures AdmitsNothing(s, RecordRoute(s, r, lease).store)
    ensures AdmitsNothing(s, RejectUnadmitted(s, r, lease, error).store)
  {
    var a, b, c := UpdateContext(s, r, lease, ext).store, RecordRoute(s, r, lease).store, RejectUnadmitted(s, r, lease, error).store;
    if a != s { assert a.workflows == PutOp(s, r, Op(a, r)).workflows; }
    if b != s { assert b.workflows == PutOp(s, r, Op(b, r)).workflows; }
    if c != s { assert c.workflows == PutOp(s, r, Op(c, r)).workflows; }
    OpIsQuiet(s, r, a);
    OpIsQuiet(s, r, b);
    OpIsQuiet(s, r, c);
  }

  lemma WorkQuiet(sys: System, step: Step)
    requires AttemptStep(step)
    ensures AdmitsNothing(sys.store, Work(sys, step).store)
  {
    var s := sys.store;
    var s' := Work(sys, step).store;
    if s'.workflows == s.workflows { SameWorkflows(s, s'); }
    else {
      var a := sys.attempts[step.t];
      match step
      case Route(_) => ContextQuiet(s, a.op, a.lease, false, "");
      case SaveContext(_, ext) => ContextQuiet(s, a.op, a.lease, ext, "");
      case PrepareRow(_) => AttemptQuiet(s, a.op, a.stage.version, step.t, a.lease);
      case CrossBarrier(_, _) => AttemptQuiet(s, a.op, a.stage.version, step.t, a.lease);
      case Settle(_, answered, error) => SettleQuiet(sys, step.t, a, answered, error);
      case _ =>
    }
  }

  lemma SettleQuiet(sys: System, t: Token, a: Attempt, answered: bool, error: string)
    ensures AdmitsNothing(sys.store, SettleStep(sys, t, a, answered, error).store)
  {
    var s := sys.store;
    if a.stage.Settling? && HasOp(s, a.op) {
      var action := Op(s, a.op).action;
      var ending := a.stage.ending;
      CompleteQuiet(s, a.op, a.stage.version, t, a.lease, Classify(ending, Effectful(action), a.crossed), EvidencePhase(a),
                    ending == TransientFault && !Effectful(action) && RetriesTransients(action), if ending == Returned then "" else error);
    }
    SameWorkflows(s, s);
  }

  lemma AggregateQuiet(s: Store, w: nat, token: Token, reason: string, keep: bool)
    ensures AdmitsNothing(s, Recompute(s, w, token, reason, keep).store)
  {
    var s' := Recompute(s, w, token, reason, keep).store;
    if s' == s { SameWorkflows(s, s'); } else { PutIsQuiet(s, w, s'.workflows[w], s'); }
  }

  lemma LeaseQuiet(s: Store, w: nat, owner: nat, ttl: nat, token: Token)
    ensures AdmitsNothing(s, AcquireLease(s, w, owner, ttl, false).store)
    ensures AdmitsNothing(s, RenewLease(s, w, token, ttl).store) && AdmitsNothing(s, ReleaseLease(s, w, token).store)
  {
    var a, b, c := AcquireLease(s, w, owner, ttl, false).store, RenewLease(s, w, token, ttl).store, ReleaseLease(s, w, token).store;
    if a == s { SameWorkflows(s, a); } else { PutIsQuiet(s, w, a.workflows[w], a); }
    if b == s { SameWorkflows(s, b); } else { PutIsQuiet(s, w, b.workflows[w], b); }
    if c == s { SameWorkflows(s, c); } else { PutIsQuiet(s, w, c.workflows[w], c); }
  }

  lemma CoordinateQuiet(cfg: Config, sys: System, step: Step)
    requires CoordinatorStep(step) && !step.ClaimFor?
    ensures AdmitsNothing(sys.store, Coordinate(cfg, sys, step).store)
  {
    var s := sys.store;
    var s' := Coordinate(cfg, sys, step).store;
    if s'.workflows == s.workflows { SameWorkflows(s, s'); }
    else if step.StartCoordinator? { LeaseQuiet(s, step.w, step.owner, step.ttl, 0); }
    else {
      var k := sys.coordinators[step.c];
      match step
      case Begin(c, version) => OperatorQuiet(s, k.w, version, WfRunning, Some(c), NO_NOTE);
      case RejectFor(c, i, error) => ContextQuiet(s, OpRef(k.w, i), c, false, error);
      case RecomputeFor(c, reason, keep) => AggregateQuiet(s, k.w, c, reason, keep);
      case RenewFor(c, ttl) => LeaseQuiet(s, k.w, 0, ttl, c);
      case StopCoordinator(c) => LeaseQuiet(s, k.w, 0, 0, c);
      case _ =>
    }
  }

  // ----- The limits -----

  ghost predicate WithinParallel(cfg: Config, s: Store) {
    && GlobalAdmissions(s.workflows) <= cfg.globalLimit
    && forall w :: 0 <= w < |s.workflows| ==> AdmissionCount(s.workflows[w].ops) <= ParallelLimit(s.workflows[w])
  }

  lemma {:induction false} NoAdmissions(ops: seq<Operation>)
    requires forall i :: 0 <= i < |ops| ==> ops[i].admission.None?
    ensures AdmissionCount(ops) == 0
  {
    if ops != [] { NoAdmissions(ops[..|ops| - 1]); }
  }

  lemma QuietKeepsLimits(cfg: Config, s: Store, s': Store)
    requires WithinParallel(cfg, s) && AdmitsNothing(s, s')
    ensures WithinParallel(cfg, s')
  {
    forall w | 0 <= w < |s'.workflows|
      ensures AdmissionCount(s'.workflows[w].ops) <= if w < |s.workflows| then AdmissionCount(s.workflows[w].ops) else 0
    {
      if w < |s.workflows| {
        assert Quieter(s.workflows[w], s'.workflows[w]);
        FewerAdmissions(s.workflows[w].ops, s'.workflows[w].ops);
      } else {
        assert Unadmitted(s'.workflows[w]);
        NoAdmissions(s'.workflows[w].ops);
      }
    }
    GlobalShrinks(s.workflows, s'.workflows);
    forall w | 0 <= w < |s'.workflows| ensures AdmissionCount(s'.workflows[w].ops) <= ParallelLimit(s'.workflows[w]) {
      if w < |s.workflows| { assert Quieter(s.workflows[w], s'.workflows[w]); }
    }
  }

  /** A claim admits one operation, and only below both limits. */
  lemma ClaimKeepsLimits(cfg: Config, s: Store, r: OpRef, token: Token)
    requires WithinParallel(cfg, s)
    ensures WithinParallel(cfg, ClaimOperation(s, r, token, cfg.globalLimit).store)
  {
    var s' := ClaimOperation(s, r, token, cfg.globalLimit).store;
    if s' != s {
      OneMoreAdmission(s.workflows[r.w].ops, r.i, Op(s', r));
      GlobalUpdate(s.workflows, r.w, s'.workflows[r.w]);
    }
  }

  /** A step of anyone but a coordinator admits nothing. */
  lemma OthersAreQuiet(cfg: Config, sys: System, step: Step)
    requires OperatorStep(step) || AttemptStep(step) || SharedStep(step)
    ensures AdmitsNothing(sys.store, Apply(cfg, sys, step).store)
  {
    if OperatorStep(step) { EnvironmentQuiet(sys, step); }
    else if AttemptStep(step) { WorkQuiet(sys, step); }
    else { SameWorkflows(sys.store, Share(cfg, sys, step).store); }
  }

  /** Every step but a claim admits nothing. */
  lemma StepIsQuiet(cfg: Config, sys: System, step: Step)
    requires !step.ClaimFor?
    ensures AdmitsNothing(sys.store, Apply(cfg, sys, step).store)
  {
    if OperatorStep(step) || AttemptStep(step) || SharedStep(step) { OthersAreQuiet(cfg, sys, step); }
    else { CoordinateQuiet(cfg, sys, step); }
  }

  lemma StepKeepsLimits(cfg: Config, sys: System, step: Step)
    requires WithinParallel(cfg, sys.store)
    ensures WithinParallel(cfg, Apply(cfg, sys, step).store)
  {
    if step.ClaimFor? {
      ClaimStepKeepsLimits(cfg, sys, step);
    } else {
      StepIsQuiet(cfg, sys, step);
      QuietKeepsLimits(cfg, sys.store, Apply(cfg, sys, step).store);
    }
  }

  lemma ClaimStepKeepsLimits(cfg: Config, sys: System, step: Step)
    requires WithinParallel(cfg, sys.store) && step.ClaimFor?
    ensures WithinParallel(cfg, Coordinate(cfg, sys, step).store)
  {
    if step.c in sys.coordinators && sys.coordinators[step.c].granted.Some? {
      var k := sys.coordinators[step.c];
      ClaimKeepsLimits(cfg, sys.store, OpRef(k.w, k.granted.value), step.c);
    }
  }

  /** In every reachable state the admitted executions of a workflow are within its parallelism, and all together
      within the global limit. */
  lemma {:induction false} ParallelismHolds(cfg: Config, steps: seq<Step>)
    ensures WithinParallel(cfg, Run(cfg, steps).store)
  {
    if steps != [] {
      ParallelismHolds(cfg, steps[..|steps| - 1]);
      StepKeepsLimits(cfg, Run(cfg, steps[..|steps| - 1]), steps[|steps| - 1]);
    }
  }

  /** In every reachable state a running, uncancelled workflow with unfinished work and nothing failed or in flight has a
      step that the holder of its lease can claim, as long as the global limit leaves room. */
  lemma ProgressIsClaimable(cfg: Config, steps: seq<Step>, w: nat, token: Token)
    requires w < |Run(cfg, steps).store.workflows| && LeaseLive(Run(cfg, steps).store, w, token)
    requires Run(cfg, steps).store.workflows[w].state == WfRunning && !Run(cfg, steps).store.workflows[w].cancelRequested
    requires Quiescent(Run(cfg, steps).store.workflows[w]) && !AllDone(Run(cfg, steps).store.workflows[w].ops)
    requires GlobalAdmissions(Run(cfg, steps).store.workflows) < cfg.globalLimit
    ensures exists i: nat :: Claimable(Run(cfg, steps).store, OpRef(w, i), token, cfg.globalLimit)
  {
    var s := Run(cfg, steps).store;
    Progress(cfg, steps, w);
    var j :| 0 <= j < |s.workflows[w].ops| && ReadinessOf(s.workflows[w], j) == Ready;
    ReadyIsClaimable(s, w, j, token, cfg.globalLimit);
  }

  lemma ReadyIsClaimable(s: Store, w: nat, j: nat, token: Token, limit: nat)
    requires LeaseLive(s, w, token) && s.workflows[w].state == WfRunning && !s.workflows[w].cancelRequested
    requires Quiescent(s.workflows[w]) && GlobalAdmissions(s.workflows) < limit
    requires j < |s.workflows[w].ops| && ReadinessOf(s.workflows[w], j) == Ready
    ensures Claimable(s, OpRef(w, j), token, limit)
  {
    NoAdmissions(s.workflows[w].ops);
  }
}
