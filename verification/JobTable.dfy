/** The durable job table of core/jobs.py: what each guarded statement does to it. Rows are in submission order.
    Liveness of processes is an oracle: a step says which rows it found dead. */
module JobTable {
  import opened Prelude

  type LaunchToken = nat
  type Worker = nat

  datatype Status = Queued | Running | Orphaned | Succeeded | FailedJob | Cancelled | TimedOut | Interrupted
  datatype DispatchPhase = NotDispatched | MayDispatch

  datatype Job = Job(
    status: Status, version: nat, deadline: Option<nat>, token: Option<LaunchToken>, launched: Option<nat>,
    worker: Option<Worker>, pid: Option<nat>, cancelRequested: bool, phase: DispatchPhase, error: string)

  datatype Table = Table(now: nat, nextToken: LaunchToken, jobs: seq<Job>)

  datatype ClaimResult = Claimed | TerminalJob | WaitForCapacity | NoSuchJob

  const QUEUE_TIMEOUT_ERROR: string := "queue timeout"
  const LAUNCH_RESERVATION_STALE: nat := 10

  predicate Active(j: Job) { j.status in {Running, Orphaned} }

  /** Queued with a live launch reservation. */
  predicate Reserved(j: Job) { j.status == Queued && j.token.Some? }

  predicate IsQueued(j: Job) { j.status == Queued }

  predicate Occupies(j: Job) { Active(j) || Reserved(j) }

  predicate TerminalStatus(s: Status) { s !in {Queued, Running, Orphaned} }

  predicate Overdue(j: Job, now: nat) { j.deadline.Some? && j.deadline.value <= now }

  function Count(jobs: seq<Job>, p: Job -> bool): nat {
    if jobs == [] then 0 else (if p(jobs[|jobs| - 1]) then 1 else 0) + Count(jobs[..|jobs| - 1], p)
  }

  function Put(t: Table, k: nat, j: Job): Table
    requires k < |t.jobs|
  {
    t.(jobs := t.jobs[k := j.(version := t.jobs[k].version + 1)])
  }

  // ----- Reservation -----

  /** The cancelled and the overdue leave the queue before capacity is counted. */
  function Swept(j: Job, now: nat): Job {
    if j.status == Queued && j.cancelRequested then
      j.(status := Cancelled, token := None, launched := None, version := j.version + 1)
    else if j.status == Queued && Overdue(j, now) then
      j.(status := TimedOut, error := QUEUE_TIMEOUT_ERROR, token := None, launched := None, version := j.version + 1)
    else j
  }

  function Sweep(jobs: seq<Job>, now: nat): (r: seq<Job>)
    ensures |r| == |jobs|
  {
    seq(|jobs|, k requires 0 <= k < |jobs| => Swept(jobs[k], now))
  }

  predicate Eligible(j: Job, now: nat) {
    j.status == Queued && j.token.None? && !j.cancelRequested && !Overdue(j, now)
  }

  function WithToken(j: Job, token: LaunchToken, now: nat): Job {
    j.(token := Some(token), launched := Some(now), version := j.version + 1)
  }

  /** Give fresh tokens to the first `available` eligible jobs among the first n. */
  function Tokens(t: Table, n: nat, available: nat): (r: (Table, seq<(nat, LaunchToken)>))
    requires n <= |t.jobs|
    ensures |r.0.jobs| == |t.jobs| && r.0.now == t.now
    ensures |r.1| <= available
  {
    if n == 0 then (t, [])
    else
      var before := Tokens(t, n - 1, available);
      var k := n - 1;
      if |before.1| < available && Eligible(before.0.jobs[k], t.now) then
        (before.0.(jobs := before.0.jobs[k := WithToken(before.0.jobs[k], before.0.nextToken, t.now)],
                   nextToken := before.0.nextToken + 1),
         before.1 + [(k, before.0.nextToken)])
      else before
  }

  function Available(jobs: seq<Job>, max: nat): nat {
    var used := Count(jobs, Active) + Count(jobs, Reserved);
    if used <= max then max - used else 0
  }

  /** The transaction of `reserve_worker_launches`. */
  function ReserveLaunches(t: Table, max: nat): (Table, seq<(nat, LaunchToken)>) {
    var swept := t.(jobs := Sweep(t.jobs, t.now));
    Tokens(swept, |swept.jobs|, Available(swept.jobs, max))
  }

  /** `_recover_stale_launch_reservations`: `dead` are the reservations whose worker was not found alive. */
  function Unreserved(j: Job, k: nat, dead: set<(nat, LaunchToken)>, now: nat): Job {
    if j.status == Queued && j.token.Some? && (k, j.token.value) in dead
       && (j.launched.None? || j.launched.value + LAUNCH_RESERVATION_STALE <= now)
    then j.(token := None, launched := None, worker := None, version := j.version + 1)
    else j
  }

  function RecoverStale(t: Table, dead: set<(nat, LaunchToken)>): Table {
    t.(jobs := seq(|t.jobs|, k requires 0 <= k < |t.jobs| => Unreserved(t.jobs[k], k, dead, t.now)))
  }

  function RecordLaunch(t: Table, k: nat, token: LaunchToken, worker: Worker): Table {
    if k < |t.jobs| && t.jobs[k].status == Queued && t.jobs[k].token == Some(token)
    then Put(t, k, t.jobs[k].(worker := Some(worker))) else t
  }

  function FailLaunch(t: Table, k: nat, token: LaunchToken, error: string): Table {
    if k < |t.jobs| && t.jobs[k].status == Queued && t.jobs[k].token == Some(token)
    then Put(t, k, t.jobs[k].(status := FailedJob, error := error, token := None, launched := None)) else t
  }

  // ----- Reconciliation -----

  /** What the liveness probe of `_reconcile` found for a row. */
  datatype Probe = Untouched | WorkerGone(childAlive: bool) | ChildGone | QueueDeadline

  function Reconciled(j: Job, probe: Probe, now: nat): Job {
    match probe
    case WorkerGone(childAlive) =>
      if j.status == Running
      then j.(status := if childAlive then Orphaned else Interrupted, error := "", version := j.version + 1) else j
    case ChildGone => if j.status == Orphaned then j.(status := Interrupted, error := "", version := j.version + 1) else j
    case QueueDeadline =>
      if j.status == Queued && Overdue(j, now)
      then j.(status := TimedOut, error := QUEUE_TIMEOUT_ERROR, version := j.version + 1) else j
    case Untouched => j
  }

  function Reconcile(t: Table, probes: map<nat, Probe>): Table {
    t.(jobs := seq(|t.jobs|, k requires 0 <= k < |t.jobs| =>
      if k in probes then Reconciled(t.jobs[k], probes[k], t.now) else t.jobs[k]))
  }

  // ----- Claim, dispatch, cancel -----

  /** The transaction of `claim_for_execution`; `claimTime` is the clock read again just before the update. */
  function Claim(t: Table, k: nat, worker: Worker, max: nat, token: Option<LaunchToken>, claimTime: nat): (Table, ClaimResult) {
    if k >= |t.jobs| then (t, NoSuchJob)
    else
      var j := t.jobs[k];
      var leaving := j.(token := None, launched := None);
      if j.status != Queued || j.token != token then (t, TerminalJob)
      else if j.cancelRequested then (Put(t, k, leaving.(status := Cancelled)), TerminalJob)
      else if Overdue(j, t.now) then (Put(t, k, leaving.(status := TimedOut, error := QUEUE_TIMEOUT_ERROR)), TerminalJob)
      else if Count(t.jobs, Active) >= max then (t, WaitForCapacity)
      else if !Overdue(j, claimTime) then
        (Put(t, k, leaving.(status := Running, phase := NotDispatched, worker := Some(worker))), Claimed)
      else (Put(t, k, leaving.(status := TimedOut, error := QUEUE_TIMEOUT_ERROR)), TerminalJob)
  }

  /** `mark_may_dispatch`: the last boundary before the effect, serialised with cancellation. */
  function MarkMayDispatch(t: Table, k: nat, worker: Worker): (Table, bool) {
    if k >= |t.jobs| then (t, false)
    else
      var j := t.jobs[k];
      if j.status == Running && j.phase == NotDispatched && j.worker == Some(worker) then
        if !j.cancelRequested then (Put(t, k, j.(phase := MayDispatch)), true)
        else (Put(t, k, j.(status := Cancelled)), false)
      else (t, false)
  }

  /** The first transaction of `cancel`. */
  function RequestCancel(t: Table, k: nat): Table {
    if k >= |t.jobs| then t
    else
      var j := t.jobs[k];
      if j.status == Queued then Put(t, k, j.(status := Cancelled, cancelRequested := true))
      else if Active(j) then Put(t, k, j.(cancelRequested := true))
      else t
  }

  /** The second transaction of `cancel`, after an orphaned process tree was terminated. */
  function FinishCancel(t: Table, k: nat): Table {
    if k < |t.jobs| && t.jobs[k].cancelRequested && t.jobs[k].status in {Orphaned, Interrupted}
    then Put(t, k, t.jobs[k].(status := Cancelled)) else t
  }

  // ----- Runs -----

  datatype JobStep =
    | Pass(elapsed: nat)
    | Submit(deadline: Option<nat>)
    | ReserveStep
    | RecoverStep(dead: set<(nat, LaunchToken)>)
    | LaunchStep(k: nat, token: LaunchToken, worker: Worker)
    | LaunchFailed(k: nat, token: LaunchToken, error: string)
    | ReconcileStep(probes: map<nat, Probe>)
    | ClaimStep(k: nat, worker: Worker, given: Option<LaunchToken>, late: nat)
    | DispatchStep(k: nat, worker: Worker)
    | CancelStep(k: nat)
    | CancelFinished(k: nat)
    | ReportPid(k: nat, pid: nat)
    | ReportEnd(k: nat, status: Status, error: string)

  function NewJob(deadline: Option<nat>): Job {
    Job(Queued, 1, deadline, None, None, None, None, false, NotDispatched, "")
  }

  /** One transaction of the job authority; the limit is constant over a run. */
  function Step(t: Table, max: nat, step: JobStep): Table {
    match step
    case Pass(d) => t.(now := t.now + d)
    case Submit(deadline) => t.(jobs := t.jobs + [NewJob(deadline)])
    case ReserveStep => ReserveLaunches(t, max).0
    case RecoverStep(dead) => RecoverStale(t, dead)
    case LaunchStep(k, token, worker) => RecordLaunch(t, k, token, worker)
    case LaunchFailed(k, token, error) => FailLaunch(t, k, token, error)
    case ReconcileStep(probes) => Reconcile(t, probes)
    case ClaimStep(k, worker, token, late) => Claim(t, k, worker, max, token, t.now + late).0
    case DispatchStep(k, worker) => MarkMayDispatch(t, k, worker).0
    case CancelStep(k) => RequestCancel(t, k)
    case CancelFinished(k) => FinishCancel(t, k)
    case ReportPid(k, pid) => if k < |t.jobs| then Put(t, k, t.jobs[k].(pid := Some(pid))) else t
    case ReportEnd(k, status, error) =>
      if k < |t.jobs| && TerminalStatus(status) then Put(t, k, t.jobs[k].(status := status, error := error)) else t
  }

  function RunJobs(max: nat, steps: seq<JobStep>): Table {
    if steps == [] then Table(0, 0, [])
    else Step(RunJobs(max, steps[..|steps| - 1]), max, steps[|steps| - 1])
  }
}
