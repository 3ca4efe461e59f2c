/** A run of the whole engine after which recovery leaves a workflow running: a workflow of one step is started and its step
    claimed, the lease expires before anything is prepared, the attempt notices and quarantines its request. */
module WorkflowExamples {
  import opened Prelude
  import opened WorkflowModels
  import opened AdmissionTables
  import opened AdmissionExamples
  import opened WorkflowTransactions
  import opened WorkflowSystem
  import opened WorkflowStoreProofs
  import opened StoreContracts

  const CFG: Config := Config(1, map[])

  // ----- The states along the run -----

  const OP: OpRef := OpRef(0, 0)
  const FRESH: Operation := NewOperation(StepDef(GitStatus, 0))
  const CLAIMED: Operation :=
    FRESH.(admission := Some(Admission(2, 0)), attempt := Some(2), phase := Reserved, generation := 1, version := 2)

  function Row(state: WorkflowState, version: nat, op: Operation, leased: bool): Workflow {
    Workflow(state, version, false, [op], [{}], 1, 0, "", if leased then Some(Lease(7, 0, 1)) else None)
  }

  function Asked(attempt: Option<Token>, state: GrantState): Request {
    Request(Some(OP), attempt, 1, "workflow_step", state, ONE_FILE, 0)
  }

  function At(now: nat, next: Token, wf: Workflow, requests: seq<Request>, k: Coordinator, attempts: map<Token, Attempt>): System {
    System(Store(now, next, [wf], requests, [], []), map[0 := k], attempts)
  }

  function Unled(wf: Workflow): System { System(Store(0, 0, [wf], [], [], []), map[], map[]) }

  const IDLE: Coordinator := Coordinator(0, {}, {}, map[], None, None)
  const GRANTED: Coordinator := Coordinator(0, {0}, {}, map[0 := Wait(0, 1)], Some(0), None)
  const HOLDING: Coordinator := IDLE.(claimed := Some(Claimed(0, 2, Wait(0, 1))))

  function Thread(stage: Stage): map<Token, Attempt> { map[2 := Attempt(OP, 0, 0, 1, false, stage)] }

  function Defined(): System { Unled(Row(WfCreated, 1, FRESH, false)) }
  function Enqueued(): System { Unled(Row(WfQueued, 2, FRESH, false)) }
  function Led(): System { At(0, 1, Row(WfQueued, 2, FRESH, true), [], IDLE, map[]) }
  function Underway(): System { At(0, 1, Row(WfRunning, 3, FRESH, true), [], IDLE, map[]) }
  function Scanned(): System { At(0, 1, Row(WfRunning, 3, FRESH, true), [], IDLE.(ready := {0}), map[]) }
  function Granted(): System { At(0, 2, Row(WfRunning, 3, FRESH, true), [Asked(None, Active)], GRANTED, map[]) }
  function Taking(): System { At(0, 3, Row(WfRunning, 3, CLAIMED, true), [Asked(None, Active)], HOLDING, map[]) }
  function Bound(): System { At(0, 3, Row(WfRunning, 3, CLAIMED, true), [Asked(Some(2), Active)], IDLE, Thread(Starting)) }
  function Expired(): System { At(1, 3, Row(WfRunning, 3, CLAIMED, true), [Asked(Some(2), Active)], IDLE, Thread(Starting)) }
  function Forsaken(): System { At(1, 3, Row(WfRunning, 3, CLAIMED, true), [Asked(Some(2), Active)], IDLE, Thread(Lost)) }

  /** Where the run ends: admitted, never prepared, and the request quarantined. */
  function Abandoned(): System { At(1, 3, Row(WfRunning, 3, CLAIMED, true), [Asked(Some(2), Quarantined)], IDLE, map[]) }

  lemma AfterCreate()
    ensures Environment(InitSystem(), Create([StepDef(GitStatus, 0)], [{}], 1)) == Defined()
  {
    var deps: seq<set<nat>> := [{}];
    assert Ranks([0], deps);
    assert NewWorkflow([StepDef(GitStatus, 0)], deps, 1).ops == [FRESH];
    var none: seq<Workflow> := [];
    assert none + [NewWorkflow([StepDef(GitStatus, 0)], deps, 1)] == [Row(WfCreated, 1, FRESH, false)];
  }

  lemma AfterMove()
    ensures Environment(Defined(), Move(0, 1, WfQueued, NO_NOTE)) == Enqueued()
  {
    var before := [Row(WfCreated, 1, FRESH, false)];
    assert before[0 := Row(WfQueued, 2, FRESH, false)] == [Row(WfQueued, 2, FRESH, false)];
  }

  lemma AfterStart()
    ensures Coordinate(CFG, Enqueued(), StartCoordinator(0, 7, 1)) == Led()
  {
    var before := [Row(WfQueued, 2, FRESH, false)];
    assert before[0 := Row(WfQueued, 2, FRESH, true)] == [Row(WfQueued, 2, FRESH, true)];
  }

  lemma AfterBegin()
    ensures Coordinate(CFG, Led(), Begin(0, 2)) == Underway()
  {
    var before := [Row(WfQueued, 2, FRESH, true)];
    assert before[0 := Row(WfRunning, 3, FRESH, true)] == [Row(WfRunning, 3, FRESH, true)];
  }

  lemma AfterScan()
    ensures Coordinate(CFG, Underway(), ScanReady(0)) == Scanned()
  {
    var wf := Row(WfRunning, 3, FRESH, true);
    assert ReadinessOf(wf, 0) == Ready;
    assert (set i | 0 <= i < |wf.ops| && ReadinessOf(wf, i) == Ready) == {0};
  }

  lemma AfterReserve()
    ensures Coordinate(CFG, Scanned(), ReserveFor(0, 0, ONE_FILE, 0)) == Granted()
  {
    var none: seq<Request> := [];
    assert none + [Asked(None, Pending)] == [Asked(None, Pending)];
    assert FirstBlocker([Asked(None, Pending)], 0, 0) == 1;
    assert [Asked(None, Pending)][0 := Asked(None, Active)] == [Asked(None, Active)];
  }

  lemma ClaimAdmits()
    ensures ClaimOperation(Store(0, 2, [Row(WfRunning, 3, FRESH, true)], [Asked(None, Active)], [], []), OP, 0, 1)
         == Tx(Store(0, 3, [Row(WfRunning, 3, CLAIMED, true)], [Asked(None, Active)], [], []), Ok(Some(2)))
  {
    var wf := Row(WfRunning, 3, FRESH, true);
    assert [FRESH][..0] == [] && AdmissionCount([FRESH]) == 0;
    assert [wf][..0] == [] && GlobalAdmissions([wf]) == 0;
    assert [FRESH][0 := CLAIMED] == [CLAIMED];
    assert [wf][0 := Row(WfRunning, 3, CLAIMED, true)] == [Row(WfRunning, 3, CLAIMED, true)];
  }

  lemma AfterClaim()
    ensures Coordinate(CFG, Granted(), ClaimFor(0)) == Taking()
  {
    ClaimAdmits();
    assert Taken(GRANTED, 0) == IDLE;
  }

  lemma AfterBind()
    ensures Coordinate(CFG, Taking(), BindFor(0, true)) == Bound()
  {
    assert [Asked(None, Active)][0 := Asked(Some(2), Active)] == [Asked(Some(2), Active)];
  }

  lemma AfterExpiry()
    ensures Environment(Bound(), Tick(1)) == Expired() && Work(Expired(), LoseLease(2)) == Forsaken()
  {
  }

  lemma AfterQuarantine()
    ensures Work(Forsaken(), SettleResource(2)) == Abandoned()
  {
    assert [Asked(Some(2), Active)][0 := Asked(Some(2), Quarantined)] == [Asked(Some(2), Quarantined)];
    assert Thread(Lost) - {2} == map[];
  }

  // ----- The run -----

  ghost predicate Reachable(sys: System) { exists steps :: Run(CFG, steps) == sys }

  lemma InitReachable()
    ensures Reachable(InitSystem())
  {
    assert Run(CFG, []) == InitSystem();
  }

  lemma Next(sys: System, step: Step)
    requires Reachable(sys)
    ensures Reachable(Apply(CFG, sys, step))
  {
    var steps :| Run(CFG, steps) == sys;
    assert (steps + [step])[..|steps|] == steps;
    assert Run(CFG, steps + [step]) == Apply(CFG, sys, step);
  }

  lemma ByOperator(sys: System, step: Step, sys': System)
    requires Reachable(sys) && OperatorStep(step) && Environment(sys, step) == sys'
    ensures Reachable(sys')
  {
    Next(sys, step);
  }

  lemma ByAttempt(sys: System, step: Step, sys': System)
    requires Reachable(sys) && !OperatorStep(step) && AttemptStep(step) && Work(sys, step) == sys'
    ensures Reachable(sys')
  {
    Next(sys, step);
  }

  lemma ByCoordinator(sys: System, step: Step, sys': System)
    requires Reachable(sys) && !OperatorStep(step) && !AttemptStep(step) && !SharedStep(step) && Coordinate(CFG, sys, step) == sys'
    ensures Reachable(sys')
  {
    Next(sys, step);
  }

  lemma ReachCreated()
    ensures Reachable(Defined())
  {
    InitReachable();
    AfterCreate();
    ByOperator(InitSystem(), Create([StepDef(GitStatus, 0)], [{}], 1), Defined());
  }

  lemma ReachQueued()
    ensures Reachable(Enqueued())
  {
    ReachCreated();
    AfterMove();
    ByOperator(Defined(), Move(0, 1, WfQueued, NO_NOTE), Enqueued());
  }

  lemma ReachStarted()
    ensures Reachable(Led())
  {
    ReachQueued();
    AfterStart();
    ByCoordinator(Enqueued(), StartCoordinator(0, 7, 1), Led());
  }

  lemma ReachRunning()
    ensures Reachable(Underway())
  {
    ReachStarted();
    AfterBegin();
    ByCoordinator(Led(), Begin(0, 2), Underway());
  }

  lemma ReachScanned()
    ensures Reachable(Scanned())
  {
    ReachRunning();
    AfterScan();
    ByCoordinator(Underway(), ScanReady(0), Scanned());
  }

  lemma ReachGranted()
    ensures Reachable(Granted())
  {
    ReachScanned();
    AfterReserve();
    ByCoordinator(Scanned(), ReserveFor(0, 0, ONE_FILE, 0), Granted());
  }

  lemma ReachClaimed()
    ensures Reachable(Taking())
  {
    ReachGranted();
    AfterClaim();
    ByCoordinator(Granted(), ClaimFor(0), Taking());
  }

  lemma ReachBound()
    ensures Reachable(Bound())
  {
    ReachClaimed();
    AfterBind();
    ByCoordinator(Taking(), BindFor(0, true), Bound());
  }

  lemma ReachExpired()
    ensures Reachable(Expired())
  {
    ReachBound();
    AfterExpiry();
    ByOperator(Bound(), Tick(1), Expired());
  }

  lemma ReachLost()
    ensures Reachable(Forsaken())
  {
    ReachExpired();
    AfterExpiry();
    ByAttempt(Expired(), LoseLease(2), Forsaken());
  }

  lemma ReachQuarantined()
    ensures Reachable(Abandoned())
  {
    ReachLost();
    AfterQuarantine();
    ByAttempt(Forsaken(), SettleResource(2), Abandoned());
  }

  lemma AbandonedIsHeldBack()
    ensures NeedsRecovery(Abandoned().store, 0) && HeldBack(Abandoned().store, 0, 0)
    ensures Recover(Abandoned().store, 0).workflows[0].state == WfRunning
  {
    var s := Abandoned().store;
    assert s.requests[0].op == Some(OP) && s.requests[0].state == Quarantined;
    assert HeldBack(s, 0, 0);
    RecoveryStaysActiveIff(s, 0);
    RecoverShape(s, 0);
    assert Recover(s, 0).workflows[0].ops[0].state == OpCreated;
  }

  /** A run leads to a store in which an operation is held back, and recovery leaves its workflow running. */
  lemma RecoveryStaysRunning()
    ensures Reachable(Abandoned()) && NeedsRecovery(Abandoned().store, 0) && HeldBack(Abandoned().store, 0, 0)
    ensures Recover(Abandoned().store, 0).workflows[0].state == WfRunning
  {
    ReachQuarantined();
    AbandonedIsHeldBack();
  }
}
