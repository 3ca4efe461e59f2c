/** The whole DAG engine: the store together with the coordinators and attempt threads of core/workflow_executor.py.
    A step is one store transaction, or one local move of a coordinator or attempt; a crash loses local state only. */
module WorkflowSystem {
  import opened Prelude
  import opened WorkflowModels
  import opened AdmissionTables
  import opened ResourceClaims
  import opened WorkflowTransactions

  // ----- Attempt threads (`_run_dag_attempt`) -----

  /** How an attempt ends: normally, or by the class of exception it catches. */
  datatype Ending = Returned | CancelledByAction | TransientFault | EffectUncertain | CancelledByStore | OtherFault

  /** The final state an attempt asks for, from what it caught and whether it knows it crossed the barrier. */
  function Classify(ending: Ending, effectful: bool, crossed: bool): OperationState {
    match ending
    case Returned => OpSucceeded
    case CancelledByAction => if crossed && effectful then OpUncertain else OpCancelled
    case TransientFault => if crossed && effectful then OpUncertain else OpFailed
    case EffectUncertain => OpUncertain
    case CancelledByStore =>
      if !crossed then OpCancelled else if effectful then OpUncertain else OpFailed
    case OtherFault => if crossed && effectful then OpUncertain else OpFailed
  }

  datatype Stage =
    | Starting
    | Preparing(version: nat)
    | Dispatching(version: nat)
    | Acting
    | Stopping(ending: Ending)
    | Settling(ending: Ending, version: nat, phase: Phase)
    | Closing(settled: OperationState)
    | Lost

  datatype Attempt = Attempt(op: OpRef, lease: Token, request: nat, owner: Token, crossed: bool, stage: Stage)

  /** An attempt that has not yet called the dispatch barrier. */
  predicate BeforeBarrier(a: Attempt) { a.stage.Starting? || a.stage.Preparing? || a.stage.Dispatching? }

  // ----- Coordinators (`_execute_dag`) -----

  datatype Wait = Wait(request: nat, owner: Token)
  datatype Claimed = Claimed(i: nat, attempt: Token, wait: Wait)

  /** `ready` and `retry` are the admission candidates of the current pass over the operations. */
  datatype Coordinator = Coordinator(
    w: nat, ready: set<nat>, retry: set<nat>, waits: map<nat, Wait>, granted: Option<nat>, claimed: Option<Claimed>)

  predicate Retryable(op: Operation) {
    op.state == OpFailed && RetriesTransients(op.action) && !Mutates(op.action) && op.retrySafe
    && op.attempts <= op.maxRetries
  }

  // ----- The system -----

  datatype Config = Config(globalLimit: nat, capacity: map<string, nat>)

  function Limit(cfg: Config, category: string): nat {
    if category in cfg.capacity then cfg.capacity[category] else 1
  }

  datatype System = System(store: Store, coordinators: map<Token, Coordinator>, attempts: map<Token, Attempt>)

  datatype StepDef = StepDef(action: Action, maxRetries: nat)

  datatype Step =
    // environment and operator
    | Tick(elapsed: nat)
    | Create(steps: seq<StepDef>, deps: seq<set<nat>>, maxParallel: nat)
    | Move(w: nat, version: nat, target: WorkflowState, note: Note)
    | Cancel(w: nat, version: nat)
    | RecoverStep(w: nat)
    | Resolve(op: OpRef, version: nat, final: OperationState)
    | ResolveRequest(request: nat)
    // coordinator
    | StartCoordinator(w: nat, owner: nat, ttl: nat)
    | Begin(c: Token, version: nat)
    | ScanRetries(c: Token)
    | ScanReady(c: Token)
    | ReserveFor(c: Token, i: nat, claims: set<Claim>, policy: nat)
    | ClaimFor(c: Token)
    | BindFor(c: Token, submitted: bool)
    | RejectFor(c: Token, i: nat, error: string)
    | RecomputeFor(c: Token, reason: string, keepRunning: bool)
    | RenewFor(c: Token, ttl: nat)
    | AbandonWait(c: Token, i: nat)
    | AbandonClaim(c: Token)
    | StopCoordinator(c: Token)
    | CrashCoordinator(c: Token)
    // attempt
    | Route(t: Token)
    | ReadRow(t: Token)
    | PrepareRow(t: Token)
    | CrossBarrier(t: Token, answered: bool)
    | SaveContext(t: Token, externalRef: bool)
    | End(t: Token, ending: Ending)
    | ReadLatest(t: Token)
    | Settle(t: Token, answered: bool, error: string)
    | SettleResource(t: Token)
    | LoseLease(t: Token)
    | CrashAttempt(t: Token)
    // native work and child permits
    | NativeReserve(known: Option<nat>, category: string, claims: set<Claim>, policy: nat)
    | NativeRelease(request: nat)
    | QuarantineHeld(request: nat)
    | RecoverNative(request: nat)
    | PermitReserve(known: Option<nat>, category: string, weight: nat, parent: Option<nat>, policy: nat)
    | PermitRelease(permit: nat)
    | PermitQuarantine(permit: nat)
    | PermitDeath(owners: set<Token>)

  /** Steps of the operator, the clock and recovery. */
  predicate OperatorStep(step: Step) {
    step.Tick? || step.Create? || step.Move? || step.Cancel? || step.RecoverStep? || step.Resolve? || step.ResolveRequest?
  }

  predicate CoordinatorStep(step: Step) {
    || step.StartCoordinator? || step.Begin? || step.ScanRetries? || step.ScanReady? || step.ReserveFor? || step.ClaimFor?
    || step.BindFor? || step.RejectFor? || step.RecomputeFor? || step.RenewFor? || step.AbandonWait? || step.AbandonClaim?
    || step.StopCoordinator? || step.CrashCoordinator?
  }

  predicate AttemptStep(step: Step) {
    || step.Route? || step.ReadRow? || step.PrepareRow? || step.CrossBarrier? || step.SaveContext? || step.End?
    || step.ReadLatest? || step.Settle? || step.SettleResource? || step.LoseLease? || step.CrashAttempt?
  }

  /** Steps of native work and child permits on the shared tables. */
  predicate SharedStep(step: Step) {
    || step.NativeReserve? || step.NativeRelease? || step.QuarantineHeld? || step.RecoverNative?
    || step.PermitReserve? || step.PermitRelease? || step.PermitQuarantine? || step.PermitDeath?
  }

  function NewOperation(d: StepDef): Operation {
    Operation(d.action, d.maxRetries, OpCreated, 1, None, NoPhase, 0, 0, false, false, NoPhase, false, "", None)
  }

  /** A validated definition: dependencies name other steps and admit a ranking, hence no cycle. */
  ghost predicate Acyclic(deps: seq<set<nat>>) {
    exists rank: seq<nat> :: Ranks(rank, deps)
  }

  ghost predicate Ranks(rank: seq<nat>, deps: seq<set<nat>>) {
    |rank| == |deps| &&
    forall i :: 0 <= i < |deps| ==> forall d :: d in deps[i] ==> d < |deps| && rank[d] < rank[i]
  }

  function NewWorkflow(steps: seq<StepDef>, deps: seq<set<nat>>, maxParallel: nat): Workflow {
    Workflow(WfCreated, 1, false, seq(|steps|, i requires 0 <= i < |steps| => NewOperation(steps[i])),
             deps, maxParallel, 0, "", None)
  }

  function InitSystem(): System {
    System(Store(0, 0, [], [], [], []), map[], map[])
  }

  function PutStore(sys: System, s: Store): System { sys.(store := s) }

  function PutAttempt(sys: System, s: Store, t: Token, a: Attempt): System {
    sys.(store := s, attempts := sys.attempts[t := a])
  }

  function PutCoordinator(sys: System, s: Store, c: Token, k: Coordinator): System {
    sys.(store := s, coordinators := sys.coordinators[c := k])
  }

  // ----- Operator and environment steps -----

  ghost function Environment(sys: System, step: Step): System
    requires OperatorStep(step)
  {
    var s := sys.store;
    match step
    case Tick(d) => PutStore(sys, s.(now := s.now + d))
    case Create(steps, deps, maxParallel) =>
      if |steps| == |deps| && steps != [] && Acyclic(deps)
      then PutStore(sys, s.(workflows := s.workflows + [NewWorkflow(steps, deps, maxParallel)])) else sys
    case Move(w, version, target, note) => PutStore(sys, Transition(s, w, version, target, None, note).store)
    case Cancel(w, version) => PutStore(sys, RequestCancel(s, w, version).store)
    case RecoverStep(w) => PutStore(sys, Recover(s, w))
    case Resolve(r, version, final) => PutStore(sys, ResolveUncertain(s, r, version, final).store)
    case ResolveRequest(k) =>
      if k < |s.requests| then PutStore(sys, ResolveQuarantined(s, k, s.requests[k].owner).store) else sys
  }

  // ----- Coordinator steps -----

  function StartStep(sys: System, w: nat, owner: nat, ttl: nat): System {
    var tx := AcquireLease(sys.store, w, owner, ttl, false);
    match tx.reply
    case Raised(_) => sys
    case Ok(token) => PutCoordinator(sys, tx.store, token, Coordinator(w, {}, {}, map[], None, None))
  }

  /** Candidates this pass may still admit. */
  predicate Candidate(k: Coordinator, i: nat) { i in k.ready || i in k.retry }

  function ReserveStep(sys: System, c: Token, k: Coordinator, i: nat, claims: set<Claim>, policy: nat): System {
    var s := sys.store;
    if !Candidate(k, i) || k.claimed.Some? || (i in k.waits && k.waits[i].request >= |s.requests|) then sys
    else
      var known := if i in k.waits then Some(k.waits[i].request) else None;
      var owner := if i in k.waits then k.waits[i].owner else s.nextToken;
      var s1 := if i in k.waits then s else s.(nextToken := s.nextToken + 1);
      var g := ReserveClaims(s.requests, known, Some(OpRef(k.w, i)), owner, "workflow_step", claims, policy);
      match g.reply
      case Raised(_) => sys
      case Ok(v) =>
        PutCoordinator(sys, s1.(requests := g.rows), c,
          k.(waits := k.waits[i := Wait(g.id, owner)], granted := if v.Admitted? then Some(i) else None))
  }

  /** The coordinator once a candidate has been answered. */
  function Taken(k: Coordinator, i: nat): Coordinator {
    k.(granted := None, ready := k.ready - {i}, retry := k.retry - {i}, waits := k.waits - {i})
  }

  /** Claim the candidate whose request was just admitted; on refusal give the request back. */
  function ClaimStep(cfg: Config, sys: System, c: Token, k: Coordinator): System {
    if k.granted.None? || !Candidate(k, k.granted.value) || k.granted.value !in k.waits then sys
    else
      var i := k.granted.value;
      var wait := k.waits[i];
      var tx := ClaimOperation(sys.store, OpRef(k.w, i), c, cfg.globalLimit);
      match tx.reply
      case Raised(_) => sys
      case Ok(None) =>
        var s := tx.store;
        PutCoordinator(sys, s.(requests := ReleaseRequest(s.requests, s.permits, wait.request, wait.owner).0), c, Taken(k, i))
      case Ok(Some(attempt)) => PutCoordinator(sys, tx.store, c, Taken(k, i).(claimed := Some(Claimed(i, attempt, wait))))
  }

  /** Bind the request to the attempt and submit its thread; when the pool refuses, the claim is still pending. */
  function BindStep(sys: System, c: Token, k: Coordinator, submitted: bool): System {
    if k.claimed.None? then sys
    else
      var m := k.claimed.value;
      var b := BindAttempt(sys.store.requests, m.wait.request, m.wait.owner, m.attempt);
      match b.1
      case Raised(_) => sys
      case Ok(_) =>
        if !submitted then PutStore(sys, sys.store.(requests := b.0))
        else
          System(sys.store.(requests := b.0), sys.coordinators[c := k.(claimed := None)],
                 sys.attempts[m.attempt := Attempt(OpRef(k.w, m.i), c, m.wait.request, m.wait.owner, false, Starting)])
  }

  /** A claim whose binding or submission failed: on its way out the coordinator gives the request back. */
  function AbandonClaimStep(sys: System, c: Token, k: Coordinator): System {
    if k.claimed.None? then sys
    else
      var s, wait := sys.store, k.claimed.value.wait;
      PutCoordinator(sys, s.(requests := ReleaseRequest(s.requests, s.permits, wait.request, wait.owner).0), c, k.(claimed := None))
  }

  function Coordinate(cfg: Config, sys: System, step: Step): System
    requires CoordinatorStep(step)
  {
    if step.StartCoordinator? then StartStep(sys, step.w, step.owner, step.ttl)
    else if step.c !in sys.coordinators then sys
    else
      var c := step.c;
      var k := sys.coordinators[c];
      var s := sys.store;
      match step
      case Begin(_, version) => PutStore(sys, Transition(s, k.w, version, WfRunning, Some(c), NO_NOTE).store)
      case ScanRetries(_) =>
        if k.w >= |s.workflows| then sys
        else PutCoordinator(sys, s, c, k.(granted := None, retry :=
          set i | 0 <= i < |s.workflows[k.w].ops| && Retryable(s.workflows[k.w].ops[i])))
      case ScanReady(_) =>
        if k.w >= |s.workflows| then sys
        else PutCoordinator(sys, s, c, k.(granted := None, ready :=
          set i | 0 <= i < |s.workflows[k.w].ops| && ReadinessOf(s.workflows[k.w], i) == Ready))
      case ReserveFor(_, i, claims, policy) => ReserveStep(sys, c, k, i, claims, policy)
      case ClaimFor(_) => ClaimStep(cfg, sys, c, k)
      case BindFor(_, submitted) => BindStep(sys, c, k, submitted)
      case AbandonClaim(_) => AbandonClaimStep(sys, c, k)
      case RejectFor(_, i, error) =>
        if Candidate(k, i) then PutStore(sys, RejectUnadmitted(s, OpRef(k.w, i), c, error).store) else sys
      case RecomputeFor(_, reason, keep) => PutStore(sys, Recompute(s, k.w, c, reason, keep).store)
      case RenewFor(_, ttl) => PutStore(sys, RenewLease(s, k.w, c, ttl).store)
      case AbandonWait(_, i) =>
        if i !in k.waits then sys
        else PutCoordinator(sys, s.(requests := ReleaseRequest(s.requests, s.permits, k.waits[i].request, k.waits[i].owner).0),
                            c, k.(waits := k.waits - {i}))
      case StopCoordinator(_) =>
        sys.(store := ReleaseLease(s, k.w, c).store, coordinators := sys.coordinators - {c})
      case CrashCoordinator(_) => sys.(coordinators := sys.coordinators - {c})
  }

  // ----- Attempt steps -----

  function Stopped(code: ErrorCode): Ending {
    if code == CancelledBeforeDispatch then CancelledByStore else OtherFault
  }

  function PrepareStep(sys: System, t: Token, a: Attempt): System {
    if !a.stage.Preparing? then sys
    else
      var tx := PrepareAttempt(sys.store, a.op, a.stage.version, t, a.lease);
      match tx.reply
      case Ok(version) => PutAttempt(sys, tx.store, t, a.(stage := Dispatching(version)))
      case Raised(e) => PutAttempt(sys, tx.store, t, a.(stage := Stopping(Stopped(e))))
  }

  /** The barrier may commit and still raise (`answered` is false): the thread then does not know that it crossed. */
  function CrossStep(sys: System, t: Token, a: Attempt, answered: bool): System {
    if !a.stage.Dispatching? then sys
    else
      var tx := MarkMayDispatch(sys.store, a.op, a.stage.version, t, a.lease);
      match tx.reply
      case Ok(_) =>
        if answered then PutAttempt(sys, tx.store, t, a.(stage := Acting, crossed := true))
        else PutAttempt(sys, tx.store, t, a.(stage := Stopping(OtherFault)))
      case Raised(e) => PutAttempt(sys, tx.store, t, a.(stage := Stopping(Stopped(e))))
  }

  function ReadLatestStep(sys: System, t: Token, a: Attempt): System {
    if !a.stage.Stopping? || !HasOp(sys.store, a.op) then sys
    else
      var op := Op(sys.store, a.op);
      PutAttempt(sys, sys.store, t, a.(stage := Settling(a.stage.ending, op.version, op.phase)))
  }

  /** The `dispatch_phase` evidence recorded with an attempt that did not return normally. */
  function EvidencePhase(a: Attempt): Phase
    requires a.stage.Settling?
  {
    if a.stage.ending == Returned then NoPhase
    else if a.crossed then MayDispatch
    else if a.stage.phase == NoPhase then Reserved else a.stage.phase
  }

  function SettleStep(sys: System, t: Token, a: Attempt, answered: bool, error: string): System {
    if !a.stage.Settling? || !HasOp(sys.store, a.op) then sys
    else
      var action := Op(sys.store, a.op).action;
      var ending := a.stage.ending;
      var retrySafe := ending == TransientFault && !Effectful(action) && RetriesTransients(action);
      var tx := CompleteAttempt(sys.store, a.op, a.stage.version, t, a.lease,
                         Classify(ending, Effectful(action), a.crossed), EvidencePhase(a), retrySafe,
                         if ending == Returned then "" else error);
      match tx.reply
      case Ok(st) => PutAttempt(sys, tx.store, t, a.(stage := if answered then Closing(st) else Stopping(OtherFault)))
      case Raised(e) =>
        if ending == Returned then PutAttempt(sys, tx.store, t, a.(stage := Stopping(OtherFault)))
        else if e in {LeaseExpired, LeaseTokenMismatch, AttemptConflict} then PutAttempt(sys, tx.store, t, a.(stage := Lost))
        else sys.(attempts := sys.attempts - {t})
  }

  /** Release the request of a settled attempt; quarantine it when the outcome is uncertain or ownership was lost. */
  function SettleResourceStep(sys: System, t: Token, a: Attempt): System {
    var s := sys.store;
    if a.stage.Lost? || (a.stage.Closing? && a.stage.settled == OpUncertain) then
      System(s.(requests := QuarantineRequest(s.requests, a.request, a.owner).0), sys.coordinators, sys.attempts - {t})
    else if a.stage.Closing? then
      System(s.(requests := ReleaseRequest(s.requests, s.permits, a.request, a.owner).0), sys.coordinators, sys.attempts - {t})
    else sys
  }

  function Work(sys: System, step: Step): System
    requires AttemptStep(step)
  {
    if step.t !in sys.attempts then sys
    else
      var t := step.t;
      var a := sys.attempts[t];
      var s := sys.store;
      match step
      case Route(_) => if a.stage.Starting? then PutStore(sys, RecordRoute(s, a.op, a.lease).store) else sys
      case ReadRow(_) =>
        if a.stage.Starting? && HasOp(s, a.op)
        then PutAttempt(sys, s, t, a.(stage := Preparing(Op(s, a.op).version))) else sys
      case PrepareRow(_) => PrepareStep(sys, t, a)
      case CrossBarrier(_, answered) => CrossStep(sys, t, a, answered)
      case SaveContext(_, ext) => if a.stage.Acting? then PutStore(sys, UpdateContext(s, a.op, a.lease, ext).store) else sys
      case End(_, ending) =>
        if (ending == Returned ==> a.stage.Acting?) && (BeforeBarrier(a) || a.stage.Acting? || a.stage.Settling?)
        then PutAttempt(sys, s, t, a.(stage := Stopping(ending))) else sys
      case ReadLatest(_) => ReadLatestStep(sys, t, a)
      case Settle(_, answered, error) => SettleStep(sys, t, a, answered, error)
      case SettleResource(_) => SettleResourceStep(sys, t, a)
      case LoseLease(_) => PutAttempt(sys, s, t, a.(stage := Lost))
      case CrashAttempt(_) => sys.(attempts := sys.attempts - {t})
  }

  // ----- Native requests and permits -----

  function NativeReserveStep(sys: System, known: Option<nat>, category: string, claims: set<Claim>, policy: nat): System {
    var s := sys.store;
    if known.Some? && (known.value >= |s.requests| || s.requests[known.value].op.Some?) then sys
    else
      var owner := if known.Some? then s.requests[known.value].owner else s.nextToken;
      var s1 := if known.Some? then s else s.(nextToken := s.nextToken + 1);
      PutStore(sys, s1.(requests := ReserveClaims(s.requests, known, None, owner, category, claims, policy).rows))
  }

  function PermitReserveStep(cfg: Config, sys: System, known: Option<nat>, category: string, weight: nat,
                             parent: Option<nat>, policy: nat): System
  {
    var s := sys.store;
    if (known.Some? && known.value >= |s.permits|) || (parent.Some? && parent.value >= |s.requests|) then sys
    else
      var owner := if known.Some? then s.permits[known.value].owner else s.nextToken;
      var s1 := if known.Some? then s else s.(nextToken := s.nextToken + 1);
      var parentOwner := if parent.Some? then s.requests[parent.value].owner else 0;
      PutStore(sys, ReserveCapacity(s1, known, category, owner, weight, Limit(cfg, category), parent, parentOwner, policy).store)
  }

  function Share(cfg: Config, sys: System, step: Step): System
    requires SharedStep(step)
  {
    var s := sys.store;
    match step
    case NativeReserve(known, category, claims, policy) => NativeReserveStep(sys, known, category, claims, policy)
    case NativeRelease(k) =>
      if k < |s.requests| && s.requests[k].op.None?
      then PutStore(sys, s.(requests := ReleaseRequest(s.requests, s.permits, k, s.requests[k].owner).0)) else sys
    case QuarantineHeld(k) =>
      if k < |s.requests| && Held(s.requests[k].state)
      then PutStore(sys, s.(requests := QuarantineRequest(s.requests, k, s.requests[k].owner).0)) else sys
    case RecoverNative(k) =>
      if k < |s.requests| && s.requests[k].op.None? && s.requests[k].state in {Active, Pending}
      then PutStore(sys, s.(requests := s.requests[k := s.requests[k].(state :=
             if s.requests[k].state == Pending then Released else Quarantined)])) else sys
    case PermitReserve(known, category, weight, parent, policy) =>
      PermitReserveStep(cfg, sys, known, category, weight, parent, policy)
    case PermitRelease(k) =>
      if k < |s.permits| then PutStore(sys, s.(permits := ReleasePermit(s.permits, k, s.permits[k].owner).0)) else sys
    case PermitQuarantine(k) =>
      if k < |s.permits| && s.permits[k].state == Active
      then
        var q := QuarantinePermit(s.requests, s.permits, k, s.permits[k].owner);
        PutStore(sys, s.(requests := q.0, permits := q.1))
      else sys
    case PermitDeath(owners) => PutStore(sys, s.(permits := ReleaseOwners(s.permits, owners)))
  }

  // ----- Runs -----

  /** One step of the system; a step that is not enabled leaves it as it is. */
  ghost function Apply(cfg: Config, sys: System, step: Step): System {
    if OperatorStep(step)
    then Environment(sys, step)
    else if AttemptStep(step)
    then Work(sys, step)
    else if SharedStep(step)
    then Share(cfg, sys, step)
    else Coordinate(cfg, sys, step)
  }

  /** The state after any finite interleaving of steps. */
  ghost function Run(cfg: Config, steps: seq<Step>): System {
    if steps == [] then InitSystem()
    else Apply(cfg, Run(cfg, steps[..|steps| - 1]), steps[|steps| - 1])
  }
}
