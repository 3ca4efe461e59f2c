/** The whole-system invariant: every step of every coordinator, attempt, operator and crash keeps it. */
module WorkflowSystemProofs {
  import opened Prelude
  import opened WorkflowModels
  import opened AdmissionTables
  import opened ResourceClaims
  import opened WorkflowTransactions
  import opened WorkflowSystem
  import opened WorkflowInvariants
  import opened WorkflowStoreProofs

  /** An attempt that still may cross owns an operation that has not; a row it read is identified by its version. */
  ghost predicate AttemptOk(s: Store, t: Token, a: Attempt) {
    && HasOp(s, a.op) && t < s.nextToken
    && a.request < |s.requests| && s.requests[a.request].state != Pending
    && (BeforeBarrier(a) && Op(s, a.op).attempt == Some(t) && Effectful(Op(s, a.op).action) ==> Crossings(s, a.op) == 0)
    && (a.stage.Settling? ==>
          a.stage.version <= Op(s, a.op).version
          && (a.stage.version == Op(s, a.op).version ==> a.stage.phase == Op(s, a.op).phase))
  }

  /** A ready candidate, as long as the coordinator's lease stands, is unadmitted and uncrossed. */
  ghost predicate ReadyOk(s: Store, c: Token, w: nat, i: nat)
  {
    var r := OpRef(w, i);
    && HasOp(s, r) && DepsDone(s.workflows[w], i)
    && (LeaseIs(s.workflows[w], c) ==>
          Op(s, r).admission.None? && (Effectful(Op(s, r).action) ==> Crossings(s, r) == 0))
  }

  ghost predicate RetryOk(s: Store, w: nat, i: nat) {
    HasOp(s, OpRef(w, i)) && DepsDone(s.workflows[w], i) && !Effectful(Op(s, OpRef(w, i)).action)
  }

  ghost predicate ClaimedOk(s: Store, w: nat, m: Claimed, attempts: map<Token, Attempt>) {
    var r := OpRef(w, m.i);
    && HasOp(s, r) && m.attempt < s.nextToken && m.attempt !in attempts
    && m.wait.request < |s.requests|
    && (Op(s, r).attempt == Some(m.attempt) && Effectful(Op(s, r).action) ==> Crossings(s, r) == 0)
  }

  ghost predicate CoordinatorOk(s: Store, attempts: map<Token, Attempt>, c: Token, k: Coordinator) {
    && c < s.nextToken && k.w < |s.workflows|
    && (forall i :: i in k.ready ==> ReadyOk(s, c, k.w, i))
    && (forall i :: i in k.retry ==> RetryOk(s, k.w, i))
    && (forall i :: i in k.waits ==> k.waits[i].request < |s.requests| && k.waits[i].owner < s.nextToken)
    && (k.claimed.Some? ==> ClaimedOk(s, k.w, k.claimed.value, attempts))
  }

  ghost predicate Logged(s: Store) { forall r :: r in s.dispatches ==> HasOp(s, r) }

  ghost predicate DistinctClaims(coordinators: map<Token, Coordinator>) {
    forall c, d :: c in coordinators && d in coordinators && c != d
                   && coordinators[c].claimed.Some? && coordinators[d].claimed.Some? ==>
                   coordinators[c].claimed.value.attempt != coordinators[d].claimed.value.attempt
  }

  ghost predicate SystemOk(sys: System) {
    && StoreOk(sys.store) && Logged(sys.store)
    && (forall t :: t in sys.attempts ==> AttemptOk(sys.store, t, sys.attempts[t]))
    && (forall c :: c in sys.coordinators ==> CoordinatorOk(sys.store, sys.attempts, c, sys.coordinators[c]))
    && DistinctClaims(sys.coordinators)
  }

  // ----- Framing of local state -----

  /** The only crossing between two stores, if any, is made by attempt `t`. */
  ghost predicate CrossedBy(s: Store, s': Store, t: Option<Token>) {
    s'.dispatches == s.dispatches ||
    (t.Some? && s'.dispatches != [] &&
     var r := s'.dispatches[|s'.dispatches| - 1]; HasOp(s, r) && Op(s, r).attempt == t)
  }

  lemma LoggedStays(s: Store, s': Store)
    requires Logged(s) && Evolves(s, s')
    ensures Logged(s')
  {
    forall r | r in s'.dispatches ensures HasOp(s', r) { assert OpEvolves(s, s', r); }
  }

  lemma CrossingsStay(s: Store, s': Store, r: OpRef)
    requires Evolves(s, s')
    requires s'.dispatches == s.dispatches || s'.dispatches[|s'.dispatches| - 1] != r
    ensures Crossings(s', r) == Crossings(s, r)
  {
  }

  lemma AttemptFrame(s: Store, s': Store, crosser: Option<Token>, t: Token, a: Attempt)
    requires AttemptOk(s, t, a) && Evolves(s, s') && CrossedBy(s, s', crosser) && crosser != Some(t)
    ensures AttemptOk(s', t, a)
  {
    assert OpEvolves(s, s', a.op) && RequestEvolves(s, s', a.request);
    if Op(s, a.op).attempt == Some(t) { CrossingsStay(s, s', a.op); }
  }

  lemma ReadyFrame(s: Store, s': Store, c: Token, w: nat, i: nat)
    requires ReadyOk(s, c, w, i) && WorkflowsOk(s) && Evolves(s, s') && c < s.nextToken
    requires HasOp(s', OpRef(w, i)) && (Op(s', OpRef(w, i)).admission == Op(s, OpRef(w, i)).admission
                                        || Op(s', OpRef(w, i)).admission.None? || !LeaseIs(s.workflows[w], c))
    ensures ReadyOk(s', c, w, i)
  {
    var r := OpRef(w, i);
    assert OpEvolves(s, s', r) && WorkflowEvolves(s, s', w) && WorkflowOk(s, w);
    DepsStayDone(s, s', r);
    if LeaseIs(s'.workflows[w], c) { CrossingsStay(s, s', r); }
  }

  lemma RetryFrame(s: Store, s': Store, w: nat, i: nat)
    requires RetryOk(s, w, i) && WorkflowsOk(s) && Evolves(s, s')
    ensures RetryOk(s', w, i)
  {
    assert OpEvolves(s, s', OpRef(w, i)) && WorkflowEvolves(s, s', w) && WorkflowOk(s, w);
    DepsStayDone(s, s', OpRef(w, i));
  }

  lemma ClaimedFrame(s: Store, s': Store, crosser: Option<Token>, w: nat, m: Claimed,
                     attempts: map<Token, Attempt>, attempts': map<Token, Attempt>)
    requires ClaimedOk(s, w, m, attempts) && Evolves(s, s') && CrossedBy(s, s', crosser)
    requires crosser != Some(m.attempt) && m.attempt !in attempts'
    ensures ClaimedOk(s', w, m, attempts')
  {
    var r := OpRef(w, m.i);
    assert OpEvolves(s, s', r);
    if Op(s, r).attempt == Some(m.attempt) { CrossingsStay(s, s', r); }
  }

  /** No step admits an operation under lease `c` except coordinator `c` itself. */
  ghost predicate AdmitsOnlyFor(s: Store, s': Store, c: Option<Token>) {
    forall r :: HasOp(s, r) && HasOp(s', r) && Op(s', r).admission.Some? && Op(s', r).admission != Op(s, r).admission
      ==> c.Some? && LeaseIs(s.workflows[r.w], c.value)
  }

  lemma CoordinatorFrame(s: Store, s': Store, crosser: Option<Token>, admitter: Option<Token>,
                         attempts: map<Token, Attempt>, attempts': map<Token, Attempt>, c: Token, k: Coordinator)
    requires CoordinatorOk(s, attempts, c, k) && WorkflowsOk(s) && Evolves(s, s')
    requires CrossedBy(s, s', crosser) && (crosser.Some? ==> crosser.value in attempts)
    requires AdmitsOnlyFor(s, s', admitter) && admitter != Some(c)
    requires k.claimed.Some? ==> k.claimed.value.attempt !in attempts'
    ensures CoordinatorOk(s', attempts', c, k)
  {
    assert WorkflowEvolves(s, s', k.w);
    forall i | i in k.ready ensures ReadyOk(s', c, k.w, i) {
      var r := OpRef(k.w, i);
      assert ReadyOk(s, c, k.w, i) && OpEvolves(s, s', r);
      ReadyFrame(s, s', c, k.w, i);
    }
    forall i | i in k.retry ensures RetryOk(s', k.w, i) { RetryFrame(s, s', k.w, i); }
    if k.claimed.Some? { ClaimedFrame(s, s', crosser, k.w, k.claimed.value, attempts, attempts'); }
  }

  /** A step keeps the invariant and stays within what every transaction keeps. */
  ghost predicate Advances(sys: System, sys': System) {
    SystemOk(sys') && Evolves(sys.store, sys'.store)
  }

  lemma AdvancesItself(sys: System)
    requires SystemOk(sys)
    ensures Advances(sys, sys)
  {
  }

  lemma CrashOk(sys: System, c: Token)
    requires SystemOk(sys)
    ensures Advances(sys, sys.(coordinators := sys.coordinators - {c}))
  {
    AdvancesItself(sys);
  }

  /** The frame of a step that changes the store only. */
  lemma StoreStepOk(sys: System, s': Store)
    requires SystemOk(sys) && Keeps(sys.store, s') && s'.dispatches == sys.store.dispatches
    requires AdmitsOnlyFor(sys.store, s', None)
    ensures Advances(sys, PutStore(sys, s'))
  {
    LoggedStays(sys.store, s');
    forall t | t in sys.attempts ensures AttemptOk(s', t, sys.attempts[t]) {
      AttemptFrame(sys.store, s', None, t, sys.attempts[t]);
    }
    forall c | c in sys.coordinators ensures CoordinatorOk(s', sys.attempts, c, sys.coordinators[c]) {
      CoordinatorFrame(sys.store, s', None, None, sys.attempts, sys.attempts, c, sys.coordinators[c]);
    }
  }

  /** The frame of a step of attempt `t`, which may cross the barrier and moves to `a`. */
  lemma AttemptStepOk(sys: System, s': Store, t: Token, a: Attempt)
    requires SystemOk(sys) && t in sys.attempts && Keeps(sys.store, s')
    requires CrossedBy(sys.store, s', Some(t)) && AdmitsOnlyFor(sys.store, s', None)
    requires AttemptOk(s', t, a)
    ensures Advances(sys, PutAttempt(sys, s', t, a))
  {
    var sys' := PutAttempt(sys, s', t, a);
    LoggedStays(sys.store, s');
    forall u | u in sys'.attempts ensures AttemptOk(s', u, sys'.attempts[u]) {
      if u != t { AttemptFrame(sys.store, s', Some(t), u, sys.attempts[u]); }
    }
    forall c | c in sys.coordinators ensures CoordinatorOk(s', sys'.attempts, c, sys.coordinators[c]) {
      CoordinatorFrame(sys.store, s', Some(t), None, sys.attempts, sys'.attempts, c, sys.coordinators[c]);
    }
  }

  lemma DropAttemptOk(sys: System, s': Store, t: Token)
    requires SystemOk(sys) && Keeps(sys.store, s') && s'.dispatches == sys.store.dispatches
    requires AdmitsOnlyFor(sys.store, s', None)
    ensures Advances(sys, System(s', sys.coordinators, sys.attempts - {t}))
  {
    StoreStepOk(sys, s');
  }

  lemma AttemptsStay(sys: System, s': Store)
    requires SystemOk(sys) && Evolves(sys.store, s') && s'.dispatches == sys.store.dispatches
    ensures forall t :: t in sys.attempts ==> AttemptOk(s', t, sys.attempts[t])
  {
    forall t | t in sys.attempts ensures AttemptOk(s', t, sys.attempts[t]) {
      AttemptFrame(sys.store, s', None, t, sys.attempts[t]);
    }
  }

  /** A coordinator keeps its claim, drops it, or takes one under a fresh token. */
  lemma ClaimsStayDistinct(sys: System, c: Token, k: Coordinator)
    requires SystemOk(sys)
    requires k.claimed.Some? ==> (c in sys.coordinators && k.claimed == sys.coordinators[c].claimed)
                                 || k.claimed.value.attempt >= sys.store.nextToken
    ensures DistinctClaims(sys.coordinators[c := k])
  {
    forall d | d in sys.coordinators && sys.coordinators[d].claimed.Some?
      ensures sys.coordinators[d].claimed.value.attempt < sys.store.nextToken
    {
      assert CoordinatorOk(sys.store, sys.attempts, d, sys.coordinators[d]);
    }
  }

  /** The frame of a step of coordinator `c`, which may admit operations and moves to `k`. */
  lemma CoordinatorStepOk(sys: System, s': Store, c: Token, k: Coordinator)
    requires SystemOk(sys) && Keeps(sys.store, s') && s'.dispatches == sys.store.dispatches
    requires AdmitsOnlyFor(sys.store, s', Some(c))
    requires CoordinatorOk(s', sys.attempts, c, k)
    requires k.claimed.Some? ==> (c in sys.coordinators && k.claimed == sys.coordinators[c].claimed)
                                 || k.claimed.value.attempt >= sys.store.nextToken
    ensures Advances(sys, PutCoordinator(sys, s', c, k))
  {
    LoggedStays(sys.store, s');
    AttemptsStay(sys, s');
    ClaimsStayDistinct(sys, c, k);
    var cs := sys.coordinators[c := k];
    forall d | d in cs ensures CoordinatorOk(s', sys.attempts, d, cs[d]) {
      if d != c { CoordinatorFrame(sys.store, s', None, Some(c), sys.attempts, sys.attempts, d, cs[d]); }
    }
  }

  // ----- Operator and environment steps -----

  lemma RecoverAdmitsNone(s: Store, w: nat)
    ensures AdmitsOnlyFor(s, Recover(s, w), None) && Recover(s, w).dispatches == s.dispatches
  {
    if w < |s.workflows| && NeedsRecovery(s, w) {
      RecoverShape(s, w);
      var s' := Recover(s, w);
      forall r | HasOp(s, r) && HasOp(s', r) && Op(s', r).admission.Some? ensures Op(s', r).admission == Op(s, r).admission {
        if r.w == w { assert Op(s', r) == RecoveredOp(s, r); } else { assert Op(s', r) == Op(s, r); }
      }
    }
  }

  lemma ResolveAdmitsNone(s: Store, r: OpRef, version: nat, final: OperationState)
    ensures var s' := ResolveUncertain(s, r, version, final).store; AdmitsOnlyFor(s, s', None) && s'.dispatches == s.dispatches
  {
    var s' := ResolveUncertain(s, r, version, final).store;
    if s' != s {
      var m := PutOp(s, r, ResolvedOp(s, r, final));
      forall q | HasOp(s, q) && HasOp(s', q) && Op(s', q).admission.Some? ensures Op(s', q).admission == Op(s, q).admission {
        assert Op(s', q) == Op(m, q);
        if q == r { assert Op(m, q) == ResolvedOp(s, r, final); }
      }
    }
  }

  lemma ResolveQuarantinedAdmitsNone(s: Store, k: nat, owner: Token)
    ensures var s' := ResolveQuarantined(s, k, owner).store; AdmitsOnlyFor(s, s', None) && s'.dispatches == s.dispatches
  {
  }

  lemma TransitionStepOk(sys: System, w: nat, version: nat, target: WorkflowState, lease: Option<Token>, note: Note)
    requires SystemOk(sys)
    ensures Advances(sys, PutStore(sys, Transition(sys.store, w, version, target, lease, note).store))
  {
    TransitionKeeps(sys.store, w, version, target, lease, note);
    StoreStepOk(sys, Transition(sys.store, w, version, target, lease, note).store);
  }

  lemma CancelStepOk(sys: System, w: nat, version: nat)
    requires SystemOk(sys)
    ensures Advances(sys, PutStore(sys, RequestCancel(sys.store, w, version).store))
  {
    CancelKeeps(sys.store, w, version);
    StoreStepOk(sys, RequestCancel(sys.store, w, version).store);
  }

  lemma CreateStepOk(sys: System, steps: seq<StepDef>, deps: seq<set<nat>>, maxParallel: nat)
    requires SystemOk(sys) && |steps| == |deps| && Acyclic(deps)
    ensures Advances(sys, PutStore(sys, sys.store.(workflows := sys.store.workflows + [NewWorkflow(steps, deps, maxParallel)])))
  {
    CreateKeeps(sys.store, steps, deps, maxParallel);
    StoreStepOk(sys, sys.store.(workflows := sys.store.workflows + [NewWorkflow(steps, deps, maxParallel)]));
  }

  lemma TickStepOk(sys: System, d: nat)
    requires SystemOk(sys)
    ensures Advances(sys, PutStore(sys, sys.store.(now := sys.store.now + d)))
  {
    TickKeeps(sys.store, d);
    StoreStepOk(sys, sys.store.(now := sys.store.now + d));
  }

  lemma ResolutionsOk(sys: System, w: nat, r: OpRef, version: nat, final: OperationState, k: nat, owner: Token)
    requires SystemOk(sys)
    ensures Advances(sys, PutStore(sys, Recover(sys.store, w)))
    ensures Advances(sys, PutStore(sys, ResolveUncertain(sys.store, r, version, final).store))
    ensures Advances(sys, PutStore(sys, ResolveQuarantined(sys.store, k, owner).store))
  {
    RecoverKeeps(sys.store, w);
    RecoverAdmitsNone(sys.store, w);
    StoreStepOk(sys, Recover(sys.store, w));
    ResolveKeeps(sys.store, r, version, final);
    ResolveAdmitsNone(sys.store, r, version, final);
    StoreStepOk(sys, ResolveUncertain(sys.store, r, version, final).store);
    ResolveQuarantinedKeeps(sys.store, k, owner);
    ResolveQuarantinedAdmitsNone(sys.store, k, owner);
    StoreStepOk(sys, ResolveQuarantined(sys.store, k, owner).store);
  }

  lemma EnvironmentOk(sys: System, step: Step)
    requires OperatorStep(step)
    requires SystemOk(sys)
    ensures Advances(sys, Environment(sys, step))
  {
    AdvancesItself(sys);
    var s := sys.store;
    match step
    case Tick(d) => TickStepOk(sys, d);
    case Create(steps, deps, maxParallel) =>
      if |steps| == |deps| && Acyclic(deps) { CreateStepOk(sys, steps, deps, maxParallel); }
    case Move(w, version, target, note) => TransitionStepOk(sys, w, version, target, None, note);
    case Cancel(w, version) => CancelStepOk(sys, w, version);
    case RecoverStep(w) => ResolutionsOk(sys, w, OpRef(0, 0), 0, OpUncertain, 0, 0);
    case Resolve(r, version, final) => ResolutionsOk(sys, 0, r, version, final, 0, 0);
    case ResolveRequest(k) =>
      if k < |s.requests| { ResolutionsOk(sys, 0, OpRef(0, 0), 0, OpUncertain, k, s.requests[k].owner); }
  }

  // ----- Coordinator steps -----

  lemma StartOk(sys: System, w: nat, owner: nat, ttl: nat)
    requires SystemOk(sys)
    ensures Advances(sys, StartStep(sys, w, owner, ttl))
  {
    var tx := AcquireLease(sys.store, w, owner, ttl, false);
    LeasesKeep(sys.store, w, owner, ttl, false, 0);
    if tx.reply.Ok? {
      CoordinatorStepOk(sys, tx.store, tx.reply.value, Coordinator(w, {}, {}, map[], None, None));
    }
  }

  /** A retryable operation is not effectful: only read-only actions retry transient faults. */
  lemma ScansOk(sys: System, c: Token)
    requires SystemOk(sys) && c in sys.coordinators && sys.coordinators[c].w < |sys.store.workflows|
    ensures var s := sys.store; var k := sys.coordinators[c]; var ops := s.workflows[k.w].ops;
            && (forall i :: 0 <= i < |ops| && Retryable(ops[i]) ==> RetryOk(s, k.w, i))
            && (forall i :: 0 <= i < |ops| && ReadinessOf(s.workflows[k.w], i) == Ready ==> ReadyOk(s, c, k.w, i))
  {
    var s := sys.store;
    var k := sys.coordinators[c];
    forall i | 0 <= i < |s.workflows[k.w].ops|
      ensures Retryable(s.workflows[k.w].ops[i]) ==> RetryOk(s, k.w, i)
      ensures ReadinessOf(s.workflows[k.w], i) == Ready ==> ReadyOk(s, c, k.w, i)
    {
      var r := OpRef(k.w, i);
      assert OpOk(s, r) && Op(s, r) == s.workflows[k.w].ops[i];
    }
  }

  /** Reserving for a candidate changes the request table only. */
  lemma ReserveForKeeps(sys: System, c: Token, k: Coordinator, i: nat, claims: set<Claim>, policy: nat)
    requires SystemOk(sys) && c in sys.coordinators && k == sys.coordinators[c]
    requires ReserveStep(sys, c, k, i, claims, policy) != sys
    ensures var s' := ReserveStep(sys, c, k, i, claims, policy).store;
            Keeps(sys.store, s') && s'.workflows == sys.store.workflows && s'.dispatches == sys.store.dispatches
  {
    var s := sys.store;
    assert CoordinatorOk(s, sys.attempts, c, k);
    assert i in k.ready ==> ReadyOk(s, c, k.w, i);
    assert i in k.retry ==> RetryOk(s, k.w, i);
    var known := if i in k.waits then Some(k.waits[i].request) else None;
    var owner := if i in k.waits then k.waits[i].owner else s.nextToken;
    var token := if i in k.waits then s.nextToken else s.nextToken + 1;
    ReserveClaimsKeeps(s, known, Some(OpRef(k.w, i)), owner, "workflow_step", claims, policy, token);
  }

  lemma ReservedCoordinator(sys: System, c: Token, k: Coordinator, i: nat, claims: set<Claim>, policy: nat)
    requires SystemOk(sys) && c in sys.coordinators && k == sys.coordinators[c]
    requires ReserveStep(sys, c, k, i, claims, policy) != sys
    requires Keeps(sys.store, ReserveStep(sys, c, k, i, claims, policy).store)
    ensures var sys' := ReserveStep(sys, c, k, i, claims, policy);
            c in sys'.coordinators && CoordinatorOk(sys'.store, sys.attempts, c, sys'.coordinators[c])
  {
    CoordinatorSelfFrame(sys.store, ReserveStep(sys, c, k, i, claims, policy).store, sys.attempts, c, k);
  }

  lemma ReserveStepOk(sys: System, c: Token, k: Coordinator, i: nat, claims: set<Claim>, policy: nat)
    requires SystemOk(sys) && c in sys.coordinators && k == sys.coordinators[c]
    ensures Advances(sys, ReserveStep(sys, c, k, i, claims, policy))
  {
    var sys' := ReserveStep(sys, c, k, i, claims, policy);
    if sys' == sys { AdvancesItself(sys); } else {
      ReserveForKeeps(sys, c, k, i, claims, policy);
      ReservedCoordinator(sys, c, k, i, claims, policy);
      CoordinatorStepOk(sys, sys'.store, c, sys'.coordinators[c]);
    }
  }

  /** A coordinator's own knowledge survives a step that only touches the shared tables. */
  lemma CoordinatorSelfFrame(s: Store, s': Store, attempts: map<Token, Attempt>, c: Token, k: Coordinator)
    requires CoordinatorOk(s, attempts, c, k) && WorkflowsOk(s) && Evolves(s, s')
    requires s'.dispatches == s.dispatches && AdmitsOnlyFor(s, s', None)
    ensures CoordinatorOk(s', attempts, c, k)
  {
    CoordinatorFrame(s, s', None, None, attempts, attempts, c, k);
  }

  lemma ClaimRefused(sys: System, c: Token, k: Coordinator, i: nat)
    requires SystemOk(sys) && c in sys.coordinators && k == sys.coordinators[c] && i in k.waits
    ensures var s' := sys.store.(requests := ReleaseRequest(sys.store.requests, sys.store.permits, k.waits[i].request, k.waits[i].owner).0);
            Advances(sys, PutCoordinator(sys, s', c, Taken(k, i)))
  {
    var s := sys.store;
    assert CoordinatorOk(s, sys.attempts, c, k);
    ReleaseRequestKeeps(s, k.waits[i].request, k.waits[i].owner);
    var s' := s.(requests := ReleaseRequest(s.requests, s.permits, k.waits[i].request, k.waits[i].owner).0);
    CoordinatorSelfFrame(s, s', sys.attempts, c, k);
    CoordinatorStepOk(sys, s', c, Taken(k, i));
  }

  lemma ClaimForKeeps(cfg: Config, sys: System, c: Token, k: Coordinator, i: nat)
    requires SystemOk(sys) && c in sys.coordinators && k == sys.coordinators[c] && Candidate(k, i)
    ensures Keeps(sys.store, ClaimOperation(sys.store, OpRef(k.w, i), c, cfg.globalLimit).store)
  {
    assert CoordinatorOk(sys.store, sys.attempts, c, k);
    assert i in k.ready ==> ReadyOk(sys.store, c, k.w, i);
    assert i in k.retry ==> RetryOk(sys.store, k.w, i);
    ClaimKeeps(sys.store, OpRef(k.w, i), c, cfg.globalLimit);
  }

  lemma ClaimAnswers(s: Store, r: OpRef, c: Token, limit: nat)
    ensures var tx := ClaimOperation(s, r, c, limit);
            tx.reply == Ok(Some(s.nextToken)) || (tx.store == s && (tx.reply.Raised? || tx.reply == Ok(None)))
  {
  }

  lemma ClaimStepOk(cfg: Config, sys: System, c: Token, k: Coordinator)
    requires SystemOk(sys) && c in sys.coordinators && k == sys.coordinators[c]
    ensures Advances(sys, ClaimStep(cfg, sys, c, k))
  {
    if k.granted.None? || !Candidate(k, k.granted.value) || k.granted.value !in k.waits {
      AdvancesItself(sys);
    } else {
      var i := k.granted.value;
      ClaimAnswers(sys.store, OpRef(k.w, i), c, cfg.globalLimit);
      match ClaimOperation(sys.store, OpRef(k.w, i), c, cfg.globalLimit).reply
      case Raised(_) => AdvancesItself(sys);
      case Ok(None) => ClaimRefused(sys, c, k, i);
      case Ok(Some(_)) => ClaimAdvances(cfg, sys, c, k, i);
    }
  }

  lemma ClaimAdvances(cfg: Config, sys: System, c: Token, k: Coordinator, i: nat)
    requires SystemOk(sys) && c in sys.coordinators && k == sys.coordinators[c] && i in k.waits && Candidate(k, i)
    requires ClaimOperation(sys.store, OpRef(k.w, i), c, cfg.globalLimit).reply == Ok(Some(sys.store.nextToken))
    ensures Advances(sys, PutCoordinator(sys, ClaimOperation(sys.store, OpRef(k.w, i), c, cfg.globalLimit).store, c,
                                         Taken(k, i).(claimed := Some(Claimed(i, sys.store.nextToken, k.waits[i])))))
  {
    ClaimForKeeps(cfg, sys, c, k, i);
    ClaimAdmitted(cfg, sys, c, k, i);
    ClaimIsQuiet(cfg, sys.store, OpRef(k.w, i), c);
    CoordinatorStepOk(sys, ClaimOperation(sys.store, OpRef(k.w, i), c, cfg.globalLimit).store, c,
                      Taken(k, i).(claimed := Some(Claimed(i, sys.store.nextToken, k.waits[i]))));
  }

  lemma ClaimIsQuiet(cfg: Config, s: Store, r: OpRef, c: Token)
    requires HasOp(s, r)
    ensures var s' := ClaimOperation(s, r, c, cfg.globalLimit).store;
            s'.dispatches == s.dispatches && AdmitsOnlyFor(s, s', Some(c)) && s'.requests == s.requests
    ensures var s' := ClaimOperation(s, r, c, cfg.globalLimit).store;
            forall q :: HasOp(s, q) && q != r ==> HasOp(s', q) && Op(s', q) == Op(s, q)
  {
  }

  /** The candidates that remain are still what the scan found. */
  lemma CandidatesStay(cfg: Config, s: Store, c: Token, k: Coordinator, i: nat, attempts: map<Token, Attempt>)
    requires CoordinatorOk(s, attempts, c, k) && WorkflowsOk(s) && HasOp(s, OpRef(k.w, i))
    requires Evolves(s, ClaimOperation(s, OpRef(k.w, i), c, cfg.globalLimit).store)
    ensures var s' := ClaimOperation(s, OpRef(k.w, i), c, cfg.globalLimit).store;
            && (forall j :: j in Taken(k, i).ready ==> ReadyOk(s', c, k.w, j))
            && (forall j :: j in Taken(k, i).retry ==> RetryOk(s', k.w, j))
  {
    var s' := ClaimOperation(s, OpRef(k.w, i), c, cfg.globalLimit).store;
    ClaimIsQuiet(cfg, s, OpRef(k.w, i), c);
    forall j | j in Taken(k, i).ready ensures ReadyOk(s', c, k.w, j) {
      assert ReadyOk(s, c, k.w, j) && Op(s', OpRef(k.w, j)) == Op(s, OpRef(k.w, j));
      ReadyFrame(s, s', c, k.w, j);
    }
    forall j | j in Taken(k, i).retry ensures RetryOk(s', k.w, j) { RetryFrame(s, s', k.w, j); }
  }

  lemma ClaimAdmitted(cfg: Config, sys: System, c: Token, k: Coordinator, i: nat)
    requires SystemOk(sys) && c in sys.coordinators && k == sys.coordinators[c] && i in k.waits && Candidate(k, i)
    requires ClaimOperation(sys.store, OpRef(k.w, i), c, cfg.globalLimit).reply == Ok(Some(sys.store.nextToken))
    requires Keeps(sys.store, ClaimOperation(sys.store, OpRef(k.w, i), c, cfg.globalLimit).store)
    ensures CoordinatorOk(ClaimOperation(sys.store, OpRef(k.w, i), c, cfg.globalLimit).store, sys.attempts, c,
                          Taken(k, i).(claimed := Some(Claimed(i, sys.store.nextToken, k.waits[i]))))
  {
    var s := sys.store;
    var r := OpRef(k.w, i);
    var s' := ClaimOperation(s, r, c, cfg.globalLimit).store;
    assert CoordinatorOk(s, sys.attempts, c, k);
    assert i in k.ready ==> ReadyOk(s, c, k.w, i);
    assert i in k.retry ==> RetryOk(s, k.w, i);
    assert OpEvolves(s, s', r);
    CandidatesStay(cfg, s, c, k, i, sys.attempts);
    forall t | t in sys.attempts ensures t != s.nextToken { assert AttemptOk(s, t, sys.attempts[t]); }
    assert ClaimedOk(s', k.w, Claimed(i, s.nextToken, k.waits[i]), sys.attempts);
  }

  lemma BindCoordinators(sys: System, c: Token, k: Coordinator, d: Token)
    requires SystemOk(sys) && c in sys.coordinators && k == sys.coordinators[c] && BindStep(sys, c, k, true) != sys
    requires Keeps(sys.store, BindStep(sys, c, k, true).store) && d in sys.coordinators
    ensures var sys' := BindStep(sys, c, k, true); CoordinatorOk(sys'.store, sys'.attempts, d, sys'.coordinators[d])
  {
    var sys' := BindStep(sys, c, k, true);
    assert CoordinatorOk(sys.store, sys.attempts, d, sys.coordinators[d]);
    CoordinatorFrame(sys.store, sys'.store, None, None, sys.attempts, sys'.attempts, d, sys'.coordinators[d]);
  }

  lemma BindAttempts(sys: System, c: Token, k: Coordinator, t: Token)
    requires SystemOk(sys) && c in sys.coordinators && k == sys.coordinators[c] && BindStep(sys, c, k, true) != sys
    requires Keeps(sys.store, BindStep(sys, c, k, true).store) && t in BindStep(sys, c, k, true).attempts
    ensures var sys' := BindStep(sys, c, k, true); AttemptOk(sys'.store, t, sys'.attempts[t])
  {
    var sys' := BindStep(sys, c, k, true);
    var m := k.claimed.value;
    assert CoordinatorOk(sys.store, sys.attempts, c, k) && OpEvolves(sys.store, sys'.store, OpRef(k.w, m.i));
    if t != m.attempt { AttemptFrame(sys.store, sys'.store, None, t, sys.attempts[t]); }
  }

  lemma SubmitKeeps(sys: System, c: Token, k: Coordinator)
    requires SystemOk(sys) && c in sys.coordinators && k == sys.coordinators[c] && BindStep(sys, c, k, true) != sys
    ensures Keeps(sys.store, BindStep(sys, c, k, true).store)
  {
    var m := k.claimed.value;
    assert CoordinatorOk(sys.store, sys.attempts, c, k);
    BindKeeps(sys.store, m.wait.request, m.wait.owner, m.attempt);
  }

  lemma SubmitOk(sys: System, c: Token, k: Coordinator)
    requires SystemOk(sys) && c in sys.coordinators && k == sys.coordinators[c]
    ensures Advances(sys, BindStep(sys, c, k, true))
  {
    var sys' := BindStep(sys, c, k, true);
    if sys' == sys { AdvancesItself(sys); }
    else {
      SubmitKeeps(sys, c, k);
      LoggedStays(sys.store, sys'.store);
      ClaimsStayDistinct(sys, c, k.(claimed := None));
      forall t | t in sys'.attempts ensures AttemptOk(sys'.store, t, sys'.attempts[t]) { BindAttempts(sys, c, k, t); }
      forall d | d in sys'.coordinators ensures CoordinatorOk(sys'.store, sys'.attempts, d, sys'.coordinators[d]) {
        BindCoordinators(sys, c, k, d);
      }
    }
  }

  lemma BindStepOk(sys: System, c: Token, k: Coordinator, submitted: bool)
    requires SystemOk(sys) && c in sys.coordinators && k == sys.coordinators[c]
    ensures Advances(sys, BindStep(sys, c, k, submitted))
  {
    if submitted { SubmitOk(sys, c, k); }
    else {
      AdvancesItself(sys);
      if k.claimed.Some? {
        var m := k.claimed.value;
        assert CoordinatorOk(sys.store, sys.attempts, c, k);
        BindKeeps(sys.store, m.wait.request, m.wait.owner, m.attempt);
        StoreStepOk(sys, sys.store.(requests := BindAttempt(sys.store.requests, m.wait.request, m.wait.owner, m.attempt).0));
      }
    }
  }

  lemma AbandonClaimOk(sys: System, c: Token, k: Coordinator)
    requires SystemOk(sys) && c in sys.coordinators && k == sys.coordinators[c]
    ensures Advances(sys, AbandonClaimStep(sys, c, k))
  {
    AdvancesItself(sys);
    if k.claimed.Some? {
      var s, wait := sys.store, k.claimed.value.wait;
      assert CoordinatorOk(s, sys.attempts, c, k);
      ReleaseRequestKeeps(s, wait.request, wait.owner);
      var s' := s.(requests := ReleaseRequest(s.requests, s.permits, wait.request, wait.owner).0);
      CoordinatorSelfFrame(s, s', sys.attempts, c, k);
      CoordinatorStepOk(sys, s', c, k.(claimed := None));
    }
  }

  lemma RejectStepOk(sys: System, c: Token, k: Coordinator, i: nat, error: string)
    requires SystemOk(sys) && c in sys.coordinators && k == sys.coordinators[c] && Candidate(k, i)
    ensures Advances(sys, PutStore(sys, RejectUnadmitted(sys.store, OpRef(k.w, i), c, error).store))
  {
    assert CoordinatorOk(sys.store, sys.attempts, c, k);
    assert i in k.ready ==> ReadyOk(sys.store, c, k.w, i);
    assert i in k.retry ==> RetryOk(sys.store, k.w, i);
    RejectKeeps(sys.store, OpRef(k.w, i), c, error);
    StoreStepOk(sys, RejectUnadmitted(sys.store, OpRef(k.w, i), c, error).store);
  }

  lemma RecomputeStepOk(sys: System, w: nat, c: Token, reason: string, keep: bool)
    requires SystemOk(sys)
    ensures Advances(sys, PutStore(sys, Recompute(sys.store, w, c, reason, keep).store))
  {
    RecomputeKeeps(sys.store, w, c, reason, keep);
    StoreStepOk(sys, Recompute(sys.store, w, c, reason, keep).store);
  }

  lemma LeaseStepsOk(sys: System, w: nat, c: Token, ttl: nat)
    requires SystemOk(sys)
    ensures Advances(sys, PutStore(sys, RenewLease(sys.store, w, c, ttl).store))
    ensures Advances(sys, sys.(store := ReleaseLease(sys.store, w, c).store, coordinators := sys.coordinators - {c}))
  {
    LeasesKeep(sys.store, w, 0, ttl, false, c);
    StoreStepOk(sys, RenewLease(sys.store, w, c, ttl).store);
    StoreStepOk(sys, ReleaseLease(sys.store, w, c).store);
  }

  lemma AbandonStepOk(sys: System, c: Token, k: Coordinator, i: nat)
    requires SystemOk(sys) && c in sys.coordinators && k == sys.coordinators[c] && i in k.waits
    ensures Advances(sys, PutCoordinator(sys,
              sys.store.(requests := ReleaseRequest(sys.store.requests, sys.store.permits, k.waits[i].request, k.waits[i].owner).0),
              c, k.(waits := k.waits - {i})))
  {
    var s := sys.store;
    ReleaseRequestKeeps(s, k.waits[i].request, k.waits[i].owner);
    var s' := s.(requests := ReleaseRequest(s.requests, s.permits, k.waits[i].request, k.waits[i].owner).0);
    CoordinatorSelfFrame(s, s', sys.attempts, c, k);
    CoordinatorStepOk(sys, s', c, k.(waits := k.waits - {i}));
  }

  lemma ScanStepsOk(cfg: Config, sys: System, step: Step)
    requires SystemOk(sys) && (step.ScanRetries? || step.ScanReady?) && step.c in sys.coordinators
    ensures Advances(sys, Coordinate(cfg, sys, step))
  {
    var c := step.c;
    assert CoordinatorOk(sys.store, sys.attempts, c, sys.coordinators[c]);
    KeepsItself(sys.store);
    ScansOk(sys, c);
    CoordinatorStepOk(sys, sys.store, c, Coordinate(cfg, sys, step).coordinators[c]);
  }

  lemma AdmitStepsOk(cfg: Config, sys: System, step: Step)
    requires step.ReserveFor? || step.ClaimFor? || step.BindFor? || step.AbandonWait? || step.AbandonClaim?
    requires SystemOk(sys) && step.c in sys.coordinators
    ensures Advances(sys, Coordinate(cfg, sys, step))
  {
    var c := step.c;
    var k := sys.coordinators[c];
    AdvancesItself(sys);
    if step.ReserveFor? { ReserveStepOk(sys, c, k, step.i, step.claims, step.policy); }
    else if step.ClaimFor? { ClaimStepOk(cfg, sys, c, k); }
    else if step.BindFor? { BindStepOk(sys, c, k, step.submitted); }
    else if step.AbandonClaim? { AbandonClaimOk(sys, c, k); }
    else if step.i in k.waits { AbandonStepOk(sys, c, k, step.i); }
  }

  lemma RowStepsOk(cfg: Config, sys: System, step: Step)
    requires SystemOk(sys) && (step.Begin? || step.RejectFor? || step.RecomputeFor?) && step.c in sys.coordinators
    ensures Advances(sys, Coordinate(cfg, sys, step))
  {
    var c := step.c;
    var k := sys.coordinators[c];
    AdvancesItself(sys);
    if step.Begin? { TransitionStepOk(sys, k.w, step.version, WfRunning, Some(c), NO_NOTE); }
    else if step.RecomputeFor? { RecomputeStepOk(sys, k.w, c, step.reason, step.keepRunning); }
    else if Candidate(k, step.i) { RejectStepOk(sys, c, k, step.i, step.error); }
  }

  lemma HolderStepsOk(cfg: Config, sys: System, step: Step)
    requires SystemOk(sys) && (step.RenewFor? || step.StopCoordinator? || step.CrashCoordinator?) && step.c in sys.coordinators
    ensures Advances(sys, Coordinate(cfg, sys, step))
  {
    var w := sys.coordinators[step.c].w;
    if step.RenewFor? { LeaseStepsOk(sys, w, step.c, step.ttl); }
    else if step.StopCoordinator? { LeaseStepsOk(sys, w, step.c, 0); }
    else { CrashOk(sys, step.c); }
  }

  lemma CoordinateOk(cfg: Config, sys: System, step: Step)
    requires CoordinatorStep(step)
    requires SystemOk(sys)
    ensures Advances(sys, Coordinate(cfg, sys, step))
  {
    if step.StartCoordinator? { StartOk(sys, step.w, step.owner, step.ttl); }
    else if step.c !in sys.coordinators { AdvancesItself(sys); }
    else if step.ScanRetries? || step.ScanReady? { ScanStepsOk(cfg, sys, step); }
    else if step.ReserveFor? || step.ClaimFor? || step.BindFor? || step.AbandonWait? || step.AbandonClaim? { AdmitStepsOk(cfg, sys, step); }
    else if step.Begin? || step.RejectFor? || step.RecomputeFor? { RowStepsOk(cfg, sys, step); }
    else { HolderStepsOk(cfg, sys, step); }
  }

  // ----- Attempt steps -----

  lemma PrepareIsQuiet(s: Store, r: OpRef, version: nat, t: Token, lease: Token)
    ensures var s' := PrepareAttempt(s, r, version, t, lease).store; s'.dispatches == s.dispatches && AdmitsOnlyFor(s, s', None)
  {
  }

  lemma PrepareStepOk(sys: System, t: Token, a: Attempt)
    requires SystemOk(sys) && t in sys.attempts && a == sys.attempts[t]
    ensures Advances(sys, PrepareStep(sys, t, a))
  {
    if a.stage.Preparing? {
      assert AttemptOk(sys.store, t, a);
      PrepareKeeps(sys.store, a.op, a.stage.version, t, a.lease);
      PrepareIsQuiet(sys.store, a.op, a.stage.version, t, a.lease);
      var s' := PrepareAttempt(sys.store, a.op, a.stage.version, t, a.lease).store;
      AttemptFrame(sys.store, s', None, t, a);
      AttemptStepOk(sys, s', t, PrepareStep(sys, t, a).attempts[t]);
    } else {
      AdvancesItself(sys);
    }
  }

  /** After the barrier the attempt is past the stage in which it could cross again. */
  lemma CrossedAttempt(s: Store, s': Store, t: Token, a: Attempt, stage: Stage, crossed: bool)
    requires AttemptOk(s, t, a) && Evolves(s, s') && (stage.Acting? || stage.Stopping?)
    ensures AttemptOk(s', t, a.(stage := stage, crossed := crossed))
  {
    assert OpEvolves(s, s', a.op) && RequestEvolves(s, s', a.request);
  }

  lemma DispatchIsQuiet(s: Store, r: OpRef, version: nat, t: Token, lease: Token)
    ensures var s' := MarkMayDispatch(s, r, version, t, lease).store; CrossedBy(s, s', Some(t)) && AdmitsOnlyFor(s, s', None)
  {
  }

  lemma CrossStepOk(sys: System, t: Token, a: Attempt, answered: bool)
    requires SystemOk(sys) && t in sys.attempts && a == sys.attempts[t]
    ensures Advances(sys, CrossStep(sys, t, a, answered))
  {
    if a.stage.Dispatching? {
      var s' := MarkMayDispatch(sys.store, a.op, a.stage.version, t, a.lease).store;
      DispatchKeeps(sys.store, a.op, a.stage.version, t, a.lease);
      DispatchIsQuiet(sys.store, a.op, a.stage.version, t, a.lease);
      var a' := CrossStep(sys, t, a, answered).attempts[t];
      CrossedAttempt(sys.store, s', t, a, a'.stage, a'.crossed);
      AttemptStepOk(sys, s', t, a');
    }
  }

  /** The evidence an attempt records never hides a crossing of the row version it settles. */
  lemma EvidenceIsHonest(sys: System, t: Token, a: Attempt)
    requires SystemOk(sys) && t in sys.attempts && a == sys.attempts[t] && a.stage.Settling?
    requires Op(sys.store, a.op).version == a.stage.version
    requires Effectful(Op(sys.store, a.op).action) && Crossings(sys.store, a.op) > 0
    ensures EvidencePhase(a) !in {Reserved, Prepared, PreflightRejected}
  {
    assert AttemptOk(sys.store, t, a) && OpOk(sys.store, a.op);
  }

  lemma CompleteIsQuiet(s: Store, r: OpRef, version: nat, t: Token, lease: Token,
                        final: OperationState, evidence: Phase, retrySafe: bool, error: string)
    ensures var s' := CompleteAttempt(s, r, version, t, lease, final, evidence, retrySafe, error).store;
            AdmitsOnlyFor(s, s', None) && s'.dispatches == s.dispatches
  {
  }

  lemma SettleStepOk(sys: System, t: Token, a: Attempt, answered: bool, error: string)
    requires SystemOk(sys) && t in sys.attempts && a == sys.attempts[t]
    ensures Advances(sys, SettleStep(sys, t, a, answered, error))
  {
    if a.stage.Settling? {
      var s := sys.store;
      assert AttemptOk(s, t, a);
      var action := Op(s, a.op).action;
      var final := Classify(a.stage.ending, Effectful(action), a.crossed);
      var retrySafe := a.stage.ending == TransientFault && !Effectful(action) && RetriesTransients(action);
      var error' := if a.stage.ending == Returned then "" else error;
      if Op(s, a.op).version == a.stage.version && Effectful(action) && Crossings(s, a.op) > 0 { EvidenceIsHonest(sys, t, a); }
      CompleteKeeps(s, a.op, a.stage.version, t, a.lease, final, EvidencePhase(a), retrySafe, error');
      CompleteIsQuiet(s, a.op, a.stage.version, t, a.lease, final, EvidencePhase(a), retrySafe, error');
      var tx := CompleteAttempt(s, a.op, a.stage.version, t, a.lease, final, EvidencePhase(a), retrySafe, error');
      var s' := tx.store;
      assert Keeps(s, s') && AdmitsOnlyFor(s, s', None) && s'.dispatches == s.dispatches;
      SettledAttemptOk(sys, s', t, a, if tx.reply.Ok? && answered then Closing(tx.reply.value) else Lost);
      KeepsItself(s);
      DropAttemptOk(sys, s, t);
    }
  }

  lemma SettledAttemptOk(sys: System, s': Store, t: Token, a: Attempt, stage: Stage)
    requires SystemOk(sys) && t in sys.attempts && a == sys.attempts[t] && (stage.Closing? || stage.Lost?)
    requires Keeps(sys.store, s') && AdmitsOnlyFor(sys.store, s', None) && s'.dispatches == sys.store.dispatches
    ensures Advances(sys, PutAttempt(sys, s', t, a.(stage := stage)))
    ensures Advances(sys, PutAttempt(sys, s', t, a.(stage := Stopping(OtherFault))))
    ensures Advances(sys, PutAttempt(sys, s', t, a.(stage := Lost)))
  {
    AttemptFrame(sys.store, s', None, t, a);
    AttemptStepOk(sys, s', t, a.(stage := stage));
    AttemptStepOk(sys, s', t, a.(stage := Stopping(OtherFault)));
    AttemptStepOk(sys, s', t, a.(stage := Lost));
  }

  lemma SettleResourceStepOk(sys: System, t: Token, a: Attempt)
    requires SystemOk(sys) && t in sys.attempts && a == sys.attempts[t]
    ensures Advances(sys, SettleResourceStep(sys, t, a))
  {
    var s := sys.store;
    QuarantineRequestKeeps(s, a.request, a.owner);
    ReleaseRequestKeeps(s, a.request, a.owner);
    DropAttemptOk(sys, s.(requests := QuarantineRequest(s.requests, a.request, a.owner).0), t);
    DropAttemptOk(sys, s.(requests := ReleaseRequest(s.requests, s.permits, a.request, a.owner).0), t);
  }

  lemma RouteStepOk(sys: System, r: OpRef, lease: Token)
    requires SystemOk(sys)
    ensures Advances(sys, PutStore(sys, RecordRoute(sys.store, r, lease).store))
  {
    ContextKeeps(sys.store, r, lease, false);
    StoreStepOk(sys, RecordRoute(sys.store, r, lease).store);
  }

  lemma ContextStepOk(sys: System, r: OpRef, lease: Token, ext: bool)
    requires SystemOk(sys)
    ensures Advances(sys, PutStore(sys, UpdateContext(sys.store, r, lease, ext).store))
  {
    ContextKeeps(sys.store, r, lease, ext);
    StoreStepOk(sys, UpdateContext(sys.store, r, lease, ext).store);
  }

  /** Steps of an attempt that only read the store. */
  lemma LocalStepOk(sys: System, t: Token, a': Attempt)
    requires SystemOk(sys) && t in sys.attempts && AttemptOk(sys.store, t, a')
    ensures Advances(sys, PutAttempt(sys, sys.store, t, a'))
  {
    KeepsItself(sys.store);
    AttemptStepOk(sys, sys.store, t, a');
  }

  lemma ReadStepsOk(sys: System, step: Step)
    requires SystemOk(sys) && (step.ReadRow? || step.ReadLatest?) && step.t in sys.attempts
    ensures Advances(sys, Work(sys, step))
  {
    var a := sys.attempts[step.t];
    assert AttemptOk(sys.store, step.t, a);
    var op := Op(sys.store, a.op);
    if step.ReadRow? && a.stage.Starting? { LocalStepOk(sys, step.t, a.(stage := Preparing(op.version))); }
    else if step.ReadLatest? && a.stage.Stopping? { LocalStepOk(sys, step.t, a.(stage := Settling(a.stage.ending, op.version, op.phase))); }
    else { AdvancesItself(sys); }
  }

  lemma StopStepsOk(sys: System, step: Step)
    requires SystemOk(sys) && (step.End? || step.LoseLease? || step.CrashAttempt?) && step.t in sys.attempts
    ensures Advances(sys, Work(sys, step))
  {
    var a := sys.attempts[step.t];
    assert AttemptOk(sys.store, step.t, a);
    if step.CrashAttempt? { KeepsItself(sys.store); DropAttemptOk(sys, sys.store, step.t); }
    else if step.LoseLease? { LocalStepOk(sys, step.t, a.(stage := Lost)); }
    else { AdvancesItself(sys); LocalStepOk(sys, step.t, a.(stage := Stopping(step.ending))); }
  }

  lemma ContextStepsOk(sys: System, step: Step)
    requires SystemOk(sys) && (step.Route? || step.SaveContext?) && step.t in sys.attempts
    ensures Advances(sys, Work(sys, step))
  {
    var a := sys.attempts[step.t];
    AdvancesItself(sys);
    if step.Route? { RouteStepOk(sys, a.op, a.lease); } else { ContextStepOk(sys, a.op, a.lease, step.externalRef); }
  }

  lemma ProtocolStepsOk(sys: System, step: Step)
    requires SystemOk(sys) && (step.PrepareRow? || step.CrossBarrier? || step.Settle? || step.SettleResource?) && step.t in sys.attempts
    ensures Advances(sys, Work(sys, step))
  {
    var a := sys.attempts[step.t];
    if step.PrepareRow? { PrepareStepOk(sys, step.t, a); }
    else if step.CrossBarrier? { CrossStepOk(sys, step.t, a, step.answered); }
    else if step.Settle? { SettleStepOk(sys, step.t, a, step.answered, step.error); }
    else { SettleResourceStepOk(sys, step.t, a); }
  }

  lemma WorkOk(sys: System, step: Step)
    requires AttemptStep(step)
    requires SystemOk(sys)
    ensures Advances(sys, Work(sys, step))
  {
    if step.t !in sys.attempts { AdvancesItself(sys); }
    else if step.ReadRow? || step.ReadLatest? { ReadStepsOk(sys, step); }
    else if step.End? || step.LoseLease? || step.CrashAttempt? { StopStepsOk(sys, step); }
    else if step.Route? || step.SaveContext? { ContextStepsOk(sys, step); }
    else { ProtocolStepsOk(sys, step); }
  }

  // ----- Shared steps -----

  /** Steps on the shared tables leave the workflow rows and the event log alone. */
  ghost predicate TablesOnly(s: Store, s': Store) {
    Keeps(s, s') && s'.workflows == s.workflows && s'.dispatches == s.dispatches
  }

  lemma NativeKeeps(cfg: Config, sys: System, step: Step)
    requires SystemOk(sys) && (step.NativeReserve? || step.NativeRelease? || step.QuarantineHeld? || step.RecoverNative?)
    ensures TablesOnly(sys.store, Share(cfg, sys, step).store)
  {
    var s := sys.store;
    KeepsItself(s);
    match step {
      case NativeReserve(known, category, claims, policy) =>
        if known.None? || (known.value < |s.requests| && s.requests[known.value].op.None?) {
          if known.Some? { assert RequestOk(s, known.value); }
          var owner := if known.Some? then s.requests[known.value].owner else s.nextToken;
          ReserveClaimsKeeps(s, known, None, owner, category, claims, policy, if known.Some? then s.nextToken else s.nextToken + 1);
        }
      case NativeRelease(k) => if k < |s.requests| { ReleaseRequestKeeps(s, k, s.requests[k].owner); }
      case QuarantineHeld(k) => if k < |s.requests| { QuarantineRequestKeeps(s, k, s.requests[k].owner); }
      case RecoverNative(k) =>
        var s' := Share(cfg, sys, step).store;
        if s' != s {
          forall j | 0 <= j < |s.requests| ensures RowMoves(s, s'.requests[j], j, s.nextToken) { assert RequestOk(s, j); }
          RequestsMoveKeeps(s, s'.requests, s.nextToken);
        }
    }
  }

  lemma PermitsShareKeeps(cfg: Config, sys: System, step: Step)
    requires SystemOk(sys) && (step.PermitReserve? || step.PermitRelease? || step.PermitQuarantine? || step.PermitDeath?)
    ensures TablesOnly(sys.store, Share(cfg, sys, step).store)
  {
    var s := sys.store;
    KeepsItself(s);
    match step {
      case PermitReserve(known, category, weight, parent, policy) => PermitReserveOk(cfg, sys, known, category, weight, parent, policy);
      case PermitRelease(k) => if k < |s.permits| { PermitStatesKeep(s, k, s.permits[k].owner, {}); }
      case PermitQuarantine(k) => if k < |s.permits| { QuarantinePermitKeeps(s, k, s.permits[k].owner); }
      case PermitDeath(owners) => PermitStatesKeep(s, 0, 0, owners);
    }
  }

  lemma ShareOk(cfg: Config, sys: System, step: Step)
    requires SharedStep(step)
    requires SystemOk(sys)
    ensures Advances(sys, Share(cfg, sys, step))
  {
    if step.NativeReserve? || step.NativeRelease? || step.QuarantineHeld? || step.RecoverNative? {
      NativeKeeps(cfg, sys, step);
    } else {
      PermitsShareKeeps(cfg, sys, step);
    }
    StoreStepOk(sys, Share(cfg, sys, step).store);
  }

  lemma ReservationTouchesPermits(s: Store, known: Option<nat>, category: string, owner: Token, weight: nat, limit: nat,
                                  parent: Option<nat>, parentOwner: Token, policy: nat)
    ensures var s' := ReserveCapacity(s, known, category, owner, weight, limit, parent, parentOwner, policy).store;
            s' == s.(permits := s'.permits) && |s.permits| <= |s'.permits|
  {
  }

  /** A fresh token first, then a longer or rewritten permit table. */
  lemma TokenThenPermits(s: Store, s1: Store, s': Store)
    requires StoreOk(s) && StoreOk(s')
    requires s1 == s.(nextToken := s1.nextToken) && s.nextToken <= s1.nextToken
    requires s' == s1.(permits := s'.permits) && |s1.permits| <= |s'.permits|
    ensures Keeps(s, s')
  {
    PermitsEvolve(s, s');
  }

  lemma PermitReserveOk(cfg: Config, sys: System, known: Option<nat>, category: string, weight: nat, parent: Option<nat>, policy: nat)
    requires SystemOk(sys)
    ensures Keeps(sys.store, PermitReserveStep(cfg, sys, known, category, weight, parent, policy).store)
    ensures PermitReserveStep(cfg, sys, known, category, weight, parent, policy).store.workflows == sys.store.workflows
    ensures PermitReserveStep(cfg, sys, known, category, weight, parent, policy).store.dispatches == sys.store.dispatches
  {
    var s := sys.store;
    var s' := PermitReserveStep(cfg, sys, known, category, weight, parent, policy).store;
    if s' == s {
      KeepsItself(s);
    } else {
      var s1 := if known.Some? then s else s.(nextToken := s.nextToken + 1);
      var owner := if known.Some? then s.permits[known.value].owner else s.nextToken;
      var parentOwner := if parent.Some? then s.requests[parent.value].owner else 0;
      assert StoreOk(s1) by { TablesTokenKeeps(s, s1); }
      assert StoreOk(s') by {
        ReserveCapacityKeeps(s1, known, category, owner, weight, Limit(cfg, category), parent, parentOwner, policy);
      }
      ReservationTouchesPermits(s1, known, category, owner, weight, Limit(cfg, category), parent, parentOwner, policy);
      TokenThenPermits(s, s1, s');
    }
  }

  lemma PermitsEvolve(s: Store, s': Store)
    requires s' == s.(permits := s'.permits, nextToken := s'.nextToken)
    requires |s.permits| <= |s'.permits| && s.nextToken <= s'.nextToken
    ensures Evolves(s, s')
  {
    forall q ensures OpEvolves(s, s', q) { if HasOp(s, q) { assert Op(s', q) == Op(s, q); } }
  }

  lemma TablesTokenKeeps(s: Store, s1: Store)
    requires StoreOk(s) && s1 == s.(nextToken := s1.nextToken) && s1.nextToken >= s.nextToken
    ensures Keeps(s, s1)
  {
    PermitsKeep(s, s.permits, s1.nextToken);
  }

  // ----- Every run -----

  lemma StepOk(cfg: Config, sys: System, step: Step)
    requires SystemOk(sys)
    ensures Advances(sys, Apply(cfg, sys, step))
  {
    if OperatorStep(step) {
      EnvironmentOk(sys, step);
    } else if AttemptStep(step) {
      WorkOk(sys, step);
    } else if SharedStep(step) {
      ShareOk(cfg, sys, step);
    } else {
      CoordinateOk(cfg, sys, step);
    }
  }

  lemma {:induction false} RunOk(cfg: Config, steps: seq<Step>)
    ensures SystemOk(Run(cfg, steps))
  {
    if steps != [] {
      RunOk(cfg, steps[..|steps| - 1]);
      StepOk(cfg, Run(cfg, steps[..|steps| - 1]), steps[|steps| - 1]);
    }
  }
}
