/** Capacity and single execution of durable jobs, over every run. */
module JobTheorems {
  import opened Prelude
  import opened JobTable

  // ----- Counting -----

  lemma {:induction false} CountUpdate(jobs: seq<Job>, k: nat, j: Job, p: Job -> bool)
    requires k < |jobs|
    ensures Count(jobs[k := j], p) + (if p(jobs[k]) then 1 else 0) == Count(jobs, p) + (if p(j) then 1 else 0)
  {
    var after := jobs[k := j];
    if k == |jobs| - 1 {
      assert after[..k] == jobs[..k];
    } else {
      CountUpdate(jobs[..|jobs| - 1], k, j, p);
      assert after[..|jobs| - 1] == jobs[..|jobs| - 1][k := j];
    }
  }

  lemma {:induction false} CountShrinks(a: seq<Job>, b: seq<Job>, p: Job -> bool)
    requires |a| == |b| && forall k :: 0 <= k < |a| ==> p(b[k]) ==> p(a[k])
    ensures Count(b, p) <= Count(a, p)
  {
    if a != [] { CountShrinks(a[..|a| - 1], b[..|b| - 1], p); }
  }

  lemma CountAppend(jobs: seq<Job>, j: Job, p: Job -> bool)
    ensures Count(jobs + [j], p) == Count(jobs, p) + (if p(j) then 1 else 0)
  {
    assert (jobs + [j])[..|jobs|] == jobs;
  }

  lemma {:induction false} CountSplit(jobs: seq<Job>)
    ensures Count(jobs, Occupies) == Count(jobs, Active) + Count(jobs, Reserved)
  {
    if jobs != [] { CountSplit(jobs[..|jobs| - 1]); }
  }

  // ----- How one row moves -----

  /** Every change bumps the version; leaving the queue, cancellation, dispatch and termination are final; tokens are fresh. */
  ghost predicate Later(a: Job, b: Job, unused: LaunchToken) {
    && a.version <= b.version && (a.version == b.version ==> b == a)
    && (a.status != Queued ==> b.status != Queued)
    && (TerminalStatus(a.status) ==> TerminalStatus(b.status))
    && (a.cancelRequested ==> b.cancelRequested)
    && (a.status != Queued && a.phase == MayDispatch ==> b.phase == MayDispatch)
    && (b.token.Some? ==> b.token == a.token || b.token.value >= unused)
  }

  ghost predicate JobOk(t: Table, j: Job) {
    (j.token.Some? ==> j.token.value < t.nextToken) && (j.status == Queued ==> j.phase == NotDispatched)
  }

  ghost predicate TableOk(t: Table) { forall k :: 0 <= k < |t.jobs| ==> JobOk(t, t.jobs[k]) }

  ghost predicate Moves(t: Table, t': Table) {
    && t.now <= t'.now && t.nextToken <= t'.nextToken && |t.jobs| <= |t'.jobs|
    && forall k :: 0 <= k < |t.jobs| ==> Later(t.jobs[k], t'.jobs[k], t.nextToken)
  }

  /** The table moved on with at most n more reservations and the same active jobs. */
  ghost predicate Reserves(t: Table, t': Table, n: nat) {
    && TableOk(t') && Moves(t, t')
    && Count(t'.jobs, Active) == Count(t.jobs, Active) && Count(t'.jobs, Occupies) <= Count(t.jobs, Occupies) + n
  }

  function OneToken(t: Table, k: nat): Table
    requires k < |t.jobs|
  {
    t.(jobs := t.jobs[k := WithToken(t.jobs[k], t.nextToken, t.now)], nextToken := t.nextToken + 1)
  }

  /** One more reservation: a fresh token on an eligible row. */
  lemma TokenKeeps(t: Table, k: nat)
    requires TableOk(t) && k < |t.jobs| && Eligible(t.jobs[k], t.now)
    ensures Reserves(t, OneToken(t, k), 1)
  {
    var j := WithToken(t.jobs[k], t.nextToken, t.now);
    CountUpdate(t.jobs, k, j, Active);
    CountUpdate(t.jobs, k, j, Occupies);
  }

  lemma ReservesMore(a: Table, b: Table, c: Table, n: nat)
    requires Reserves(a, b, n) && Reserves(b, c, 1)
    ensures Reserves(a, c, n + 1)
  {
    MovesTransitive(a, b, c);
  }

  lemma {:induction false} TokensKeep(t: Table, n: nat, available: nat)
    requires TableOk(t) && n <= |t.jobs|
    ensures Reserves(t, Tokens(t, n, available).0, |Tokens(t, n, available).1|)
  {
    if n > 0 {
      TokensKeep(t, n - 1, available);
      var before := Tokens(t, n - 1, available);
      if |before.1| < available && Eligible(before.0.jobs[n - 1], t.now) {
        TokenKeeps(before.0, n - 1);
        ReservesMore(t, before.0, OneToken(before.0, n - 1), |before.1|);
      }
    }
  }

  lemma SweptRow(t: Table, k: nat)
    requires TableOk(t) && k < |t.jobs|
    ensures Shrinks(t, t.jobs[k], Swept(t.jobs[k], t.now))
  {
    assert JobOk(t, t.jobs[k]);
  }

  lemma SweepKeeps(t: Table)
    requires TableOk(t)
    ensures var s := t.(jobs := Sweep(t.jobs, t.now));
            && TableOk(s) && Moves(t, s)
            && Count(s.jobs, Active) <= Count(t.jobs, Active) && Count(s.jobs, Occupies) <= Count(t.jobs, Occupies)
  {
    forall k | 0 <= k < |t.jobs| ensures Shrinks(t, t.jobs[k], Sweep(t.jobs, t.now)[k]) { SweptRow(t, k); }
    RewriteKeeps(t, t.(jobs := Sweep(t.jobs, t.now)));
  }

  lemma MovesTransitive(a: Table, b: Table, c: Table)
    requires Moves(a, b) && Moves(b, c)
    ensures Moves(a, c)
  {
    forall k | 0 <= k < |a.jobs| ensures Later(a.jobs[k], c.jobs[k], a.nextToken) {
      assert Later(a.jobs[k], b.jobs[k], a.nextToken) && Later(b.jobs[k], c.jobs[k], b.nextToken);
    }
  }

  lemma ReserveKeeps(t: Table, max: nat)
    requires TableOk(t)
    ensures var r := ReserveLaunches(t, max);
            && TableOk(r.0) && Moves(t, r.0)
            && (Count(t.jobs, Active) <= max ==> Count(r.0.jobs, Active) <= max)
            && (Count(t.jobs, Occupies) <= max ==> Count(r.0.jobs, Occupies) <= max)
  {
    SweepKeeps(t);
    var s := t.(jobs := Sweep(t.jobs, t.now));
    TokensKeep(s, |s.jobs|, Available(s.jobs, max));
    MovesTransitive(t, s, ReserveLaunches(t, max).0);
    CountSplit(s.jobs);
  }

  /** Rewriting every row in place with something later that occupies no new slot. */
  lemma RewriteKeeps(t: Table, t': Table)
    requires TableOk(t) && t'.now == t.now && t'.nextToken == t.nextToken && |t'.jobs| == |t.jobs|
    requires forall k :: 0 <= k < |t.jobs| ==> Shrinks(t, t.jobs[k], t'.jobs[k])
    ensures TableOk(t') && Moves(t, t')
    ensures Count(t'.jobs, Active) <= Count(t.jobs, Active) && Count(t'.jobs, Occupies) <= Count(t.jobs, Occupies)
  {
    CountShrinks(t.jobs, t'.jobs, Active);
    CountShrinks(t.jobs, t'.jobs, Occupies);
  }

  ghost predicate Shrinks(t: Table, a: Job, b: Job) {
    Later(a, b, t.nextToken) && JobOk(t, b) && (Active(b) ==> Active(a)) && (Occupies(b) ==> Occupies(a))
  }

  /** A claim rewrites its own row and nothing else. */
  lemma ClaimTouchesOne(t: Table, max: nat, k: nat, worker: Worker, token: Option<LaunchToken>, time: nat)
    requires k < |t.jobs|
    ensures var r := Claim(t, k, worker, max, token, time);
            |r.0.jobs| == |t.jobs| && r.0.jobs == t.jobs[k := r.0.jobs[k]] && r.0.now == t.now && r.0.nextToken == t.nextToken
  {
    var r := Claim(t, k, worker, max, token, time);
    assert r.0.jobs == t.jobs[k := r.0.jobs[k]];
  }

  lemma ClaimMoves(t: Table, max: nat, k: nat, worker: Worker, token: Option<LaunchToken>, time: nat)
    requires TableOk(t)
    ensures TableOk(Claim(t, k, worker, max, token, time).0) && Moves(t, Claim(t, k, worker, max, token, time).0)
  {
    if k < |t.jobs| { ClaimTouchesOne(t, max, k, worker, token, time); }
  }

  lemma ClaimKeeps(t: Table, max: nat, k: nat, worker: Worker, token: Option<LaunchToken>, time: nat)
    requires TableOk(t)
    ensures var r := Claim(t, k, worker, max, token, time);
            && TableOk(r.0) && Moves(t, r.0)
            && (Count(t.jobs, Active) <= max ==> Count(r.0.jobs, Active) <= max)
            && (token.Some? && Count(t.jobs, Occupies) <= max ==> Count(r.0.jobs, Occupies) <= max)
  {
    ClaimMoves(t, max, k, worker, token, time);
    if k < |t.jobs| {
      var r := Claim(t, k, worker, max, token, time);
      ClaimTouchesOne(t, max, k, worker, token, time);
      CountUpdate(t.jobs, k, r.0.jobs[k], Active);
      CountUpdate(t.jobs, k, r.0.jobs[k], Occupies);
    }
  }

  ghost predicate TokenedClaim(step: JobStep) { step.ClaimStep? ==> step.given.Some? }

  lemma SweepShrinks(t: Table, max: nat, step: JobStep, i: nat)
    requires TableOk(t) && i < |t.jobs| && (step.RecoverStep? || step.ReconcileStep?)
    ensures |Step(t, max, step).jobs| == |t.jobs| && Shrinks(t, t.jobs[i], Step(t, max, step).jobs[i])
  {
    assert JobOk(t, t.jobs[i]);
  }

  lemma WorkerShrinks(t: Table, max: nat, step: JobStep, i: nat)
    requires TableOk(t) && i < |t.jobs| && (step.LaunchStep? || step.LaunchFailed? || step.DispatchStep? || step.ReportPid?)
    ensures |Step(t, max, step).jobs| == |t.jobs| && Shrinks(t, t.jobs[i], Step(t, max, step).jobs[i])
  {
    assert JobOk(t, t.jobs[i]);
  }

  lemma EndingShrinks(t: Table, max: nat, step: JobStep, i: nat)
    requires TableOk(t) && i < |t.jobs| && (step.CancelStep? || step.CancelFinished? || step.ReportEnd?)
    ensures |Step(t, max, step).jobs| == |t.jobs| && Shrinks(t, t.jobs[i], Step(t, max, step).jobs[i])
  {
    assert JobOk(t, t.jobs[i]);
  }

  ghost predicate RowStep(step: JobStep) {
    !step.Submit? && !step.Pass? && !step.ReserveStep? && !step.ClaimStep?
  }

  lemma RowShrinks(t: Table, max: nat, step: JobStep, i: nat)
    requires TableOk(t) && i < |t.jobs| && RowStep(step)
    ensures |Step(t, max, step).jobs| == |t.jobs| && Shrinks(t, t.jobs[i], Step(t, max, step).jobs[i])
  {
    if step.RecoverStep? || step.ReconcileStep? { SweepShrinks(t, max, step, i); }
    else if step.CancelStep? || step.CancelFinished? || step.ReportEnd? { EndingShrinks(t, max, step, i); }
    else { WorkerShrinks(t, max, step, i); }
  }

  lemma RowStepKeeps(t: Table, max: nat, step: JobStep)
    requires TableOk(t) && RowStep(step)
    ensures var t' := Step(t, max, step);
            && TableOk(t') && Moves(t, t')
            && Count(t'.jobs, Active) <= Count(t.jobs, Active) && Count(t'.jobs, Occupies) <= Count(t.jobs, Occupies)
  {
    forall i | 0 <= i < |t.jobs| ensures Shrinks(t, t.jobs[i], Step(t, max, step).jobs[i]) { RowShrinks(t, max, step, i); }
    RewriteKeeps(t, Step(t, max, step));
  }

  lemma SubmitKeeps(t: Table, max: nat, step: JobStep)
    requires TableOk(t) && (step.Submit? || step.Pass?)
    ensures var t' := Step(t, max, step);
            && TableOk(t') && Moves(t, t')
            && Count(t'.jobs, Active) == Count(t.jobs, Active) && Count(t'.jobs, Occupies) == Count(t.jobs, Occupies)
  {
    if step.Submit? {
      CountAppend(t.jobs, NewJob(step.deadline), Active);
      CountAppend(t.jobs, NewJob(step.deadline), Occupies);
    }
  }

  lemma StepKeeps(t: Table, max: nat, step: JobStep)
    requires TableOk(t)
    ensures TableOk(Step(t, max, step)) && Moves(t, Step(t, max, step))
    ensures Count(t.jobs, Active) <= max ==> Count(Step(t, max, step).jobs, Active) <= max
    ensures TokenedClaim(step) && Count(t.jobs, Occupies) <= max ==> Count(Step(t, max, step).jobs, Occupies) <= max
  {
    if step.Submit? || step.Pass? { SubmitKeeps(t, max, step); }
    else if step.ReserveStep? { ReserveKeeps(t, max); }
    else if step.ClaimStep? { ClaimKeeps(t, max, step.k, step.worker, step.given, t.now + step.late); }
    else { RowStepKeeps(t, max, step); }
  }

  // ----- Capacity over runs -----

  lemma {:induction false} RunOk(max: nat, steps: seq<JobStep>)
    ensures TableOk(RunJobs(max, steps)) && Count(RunJobs(max, steps).jobs, Active) <= max
  {
    if steps != [] {
      RunOk(max, steps[..|steps| - 1]);
      StepKeeps(RunJobs(max, steps[..|steps| - 1]), max, steps[|steps| - 1]);
    }
  }

  /** Running plus orphaned jobs never exceed the limit. */
  lemma CapacityHolds(max: nat, steps: seq<JobStep>)
    ensures Count(RunJobs(max, steps).jobs, Active) <= max
  {
    RunOk(max, steps);
  }

  /** A claim without a token of a job that awaits it, below the limit of active jobs, while active and reserved jobs
      together fill the limit. */
  ghost predicate Overbooks(t: Table, max: nat, step: JobStep) {
    && step.ClaimStep? && step.given.None? && Awaits(t, step.k, None) && !Overdue(t.jobs[step.k], t.now + step.late)
    && Count(t.jobs, Active) < max && Count(t.jobs, Occupies) == max
  }

  lemma ClaimOccupies(t: Table, max: nat, k: nat, worker: Worker, token: Option<LaunchToken>, time: nat)
    ensures var (t', r) := Claim(t, k, worker, max, token, time);
            if r == Claimed && token.None? then Count(t'.jobs, Occupies) == Count(t.jobs, Occupies) + 1
            else Count(t'.jobs, Occupies) <= Count(t.jobs, Occupies)
  {
    var (t', r) := Claim(t, k, worker, max, token, time);
    if k < |t.jobs| {
      CountUpdate(t.jobs, k, t'.jobs[k], Occupies);
      assert t'.jobs == t.jobs[k := t'.jobs[k]];
    }
  }

  /** A step keeps active and reserved jobs together within the limit if and only if it does not overbook. */
  lemma StepFitsIff(t: Table, max: nat, step: JobStep)
    requires TableOk(t) && Count(t.jobs, Occupies) <= max
    ensures Count(Step(t, max, step).jobs, Occupies) <= max <==> !Overbooks(t, max, step)
  {
    if step.ClaimStep? {
      ClaimMeaning(t, max, step.k, step.worker, step.given, t.now + step.late);
      ClaimOccupies(t, max, step.k, step.worker, step.given, t.now + step.late);
    }
    else { StepKeeps(t, max, step); }
  }

  ghost predicate AlwaysFits(max: nat, steps: seq<JobStep>) {
    forall n :: 0 <= n <= |steps| ==> Count(RunJobs(max, steps[..n]).jobs, Occupies) <= max
  }

  ghost predicate NeverOverbooks(max: nat, steps: seq<JobStep>) {
    forall n :: 0 <= n < |steps| ==> !Overbooks(RunJobs(max, steps[..n]), max, steps[n])
  }

  lemma {:induction false} FitsAt(max: nat, steps: seq<JobStep>, n: nat)
    requires NeverOverbooks(max, steps) && n <= |steps|
    ensures Count(RunJobs(max, steps[..n]).jobs, Occupies) <= max
  {
    if n > 0 {
      FitsAt(max, steps, n - 1);
      assert steps[..n][..n - 1] == steps[..n - 1];
      RunOk(max, steps[..n - 1]);
      StepFitsIff(RunJobs(max, steps[..n - 1]), max, steps[n - 1]);
    }
  }

  /** Along a run they always fit if and only if no step overbooks. */
  lemma FitsIffNeverOverbooked(max: nat, steps: seq<JobStep>)
    ensures AlwaysFits(max, steps) <==> NeverOverbooks(max, steps)
  {
    if NeverOverbooks(max, steps) {
      forall n | 0 <= n <= |steps| ensures Count(RunJobs(max, steps[..n]).jobs, Occupies) <= max { FitsAt(max, steps, n); }
    }
    if AlwaysFits(max, steps) {
      forall n | 0 <= n < |steps| ensures !Overbooks(RunJobs(max, steps[..n]), max, steps[n]) {
        var after := steps[..n + 1];
        assert after[..n] == steps[..n] && Count(RunJobs(max, after).jobs, Occupies) <= max;
        RunOk(max, steps[..n]);
        StepFitsIff(RunJobs(max, steps[..n]), max, steps[n]);
      }
    }
  }

  ghost predicate AllTokened(steps: seq<JobStep>) { forall n :: 0 <= n < |steps| ==> TokenedClaim(steps[n]) }

  /** When every claim carries a launch token, live reservations fit under the limit too. */
  lemma ReservedCapacityHolds(max: nat, steps: seq<JobStep>)
    requires AllTokened(steps)
    ensures NeverOverbooks(max, steps)
    ensures Count(RunJobs(max, steps).jobs, Active) + Count(RunJobs(max, steps).jobs, Reserved) <= max
  {
    forall n | 0 <= n < |steps| ensures !Overbooks(RunJobs(max, steps[..n]), max, steps[n]) { assert TokenedClaim(steps[n]); }
    FitsAt(max, steps, |steps|);
    assert steps[..|steps|] == steps;
    CountSplit(RunJobs(max, steps).jobs);
  }

  lemma {:induction false} CountPositive(jobs: seq<Job>, k: nat, p: Job -> bool)
    requires k < |jobs| && p(jobs[k])
    ensures Count(jobs, p) >= 1
  {
    if k < |jobs| - 1 { CountPositive(jobs[..|jobs| - 1], k, p); }
  }

  lemma HolderNeverWaits(t: Table, max: nat, k: nat, worker: Worker, token: LaunchToken, time: nat)
    requires Count(t.jobs, Occupies) <= max
    ensures Claim(t, k, worker, max, Some(token), time).1 != WaitForCapacity
  {
    CountSplit(t.jobs);
    if k < |t.jobs| && Reserved(t.jobs[k]) { CountPositive(t.jobs, k, Reserved); }
  }

  /** As long as no step overbooks, a worker that holds a live reservation is never told to wait. */
  lemma ReservationNeverWaits(max: nat, steps: seq<JobStep>, k: nat, worker: Worker, token: LaunchToken, time: nat)
    requires NeverOverbooks(max, steps)
    ensures Claim(RunJobs(max, steps), k, worker, max, Some(token), time).1 != WaitForCapacity
  {
    FitsAt(max, steps, |steps|);
    assert steps[..|steps|] == steps;
    HolderNeverWaits(RunJobs(max, steps), max, k, worker, token, time);
  }

  // ----- Single execution over runs -----

  lemma RunStep(max: nat, steps: seq<JobStep>, n: nat)
    requires n < |steps|
    ensures RunJobs(max, steps[..n + 1]) == Step(RunJobs(max, steps[..n]), max, steps[n])
    ensures Moves(RunJobs(max, steps[..n]), RunJobs(max, steps[..n + 1]))
  {
    assert steps[..n + 1][..n] == steps[..n];
    RunOk(max, steps[..n]);
    StepKeeps(RunJobs(max, steps[..n]), max, steps[n]);
  }

  lemma {:induction false} RunMoves(max: nat, steps: seq<JobStep>, m: nat, n: nat)
    requires m <= n <= |steps|
    ensures Moves(RunJobs(max, steps[..m]), RunJobs(max, steps[..n]))
    decreases n
  {
    if m < n {
      RunMoves(max, steps, m, n - 1);
      RunStep(max, steps, n - 1);
      MovesTransitive(RunJobs(max, steps[..m]), RunJobs(max, steps[..n - 1]), RunJobs(max, steps[..n]));
    }
  }

  /** Step n of the run claims job k for a worker. */
  ghost predicate ClaimsAt(max: nat, steps: seq<JobStep>, n: nat, k: nat) {
    && n < |steps| && steps[n].ClaimStep? && steps[n].k == k
    && var t := RunJobs(max, steps[..n]); Claim(t, k, steps[n].worker, max, steps[n].given, t.now + steps[n].late).1 == Claimed
  }

  /** Step n of the run moves job k across the dispatch boundary. */
  ghost predicate DispatchesAt(max: nat, steps: seq<JobStep>, n: nat, k: nat) {
    && n < |steps| && steps[n].DispatchStep? && steps[n].k == k
    && MarkMayDispatch(RunJobs(max, steps[..n]), k, steps[n].worker).1
  }

  /** A job is claimed by at most one worker, once. */
  lemma SingleClaim(max: nat, steps: seq<JobStep>, m: nat, n: nat, k: nat)
    requires m < n && ClaimsAt(max, steps, m, k)
    ensures !ClaimsAt(max, steps, n, k)
  {
    if n < |steps| {
      RunStep(max, steps, m);
      RunMoves(max, steps, m + 1, n);
      assert RunJobs(max, steps[..m + 1]).jobs[k].status == Running;
      assert RunJobs(max, steps[..n]).jobs[k].status != Queued;
    }
  }

  /** A job crosses the dispatch boundary at most once. */
  lemma SingleDispatch(max: nat, steps: seq<JobStep>, m: nat, n: nat, k: nat)
    requires m < n && DispatchesAt(max, steps, m, k)
    ensures !DispatchesAt(max, steps, n, k)
  {
    if n < |steps| {
      RunStep(max, steps, m);
      RunMoves(max, steps, m + 1, n);
      assert RunJobs(max, steps[..n]).jobs[k].phase == MayDispatch;
    }
  }

  /** No job is dispatched after its cancel has committed. */
  lemma NoDispatchAfterCancel(max: nat, steps: seq<JobStep>, m: nat, n: nat, k: nat)
    requires m <= n <= |steps| && k < |RunJobs(max, steps[..m]).jobs| && RunJobs(max, steps[..m]).jobs[k].cancelRequested
    ensures !DispatchesAt(max, steps, n, k)
  {
    RunMoves(max, steps, m, n);
  }

  lemma {:induction false} TokensKeepRunning(t: Table, n: nat, available: nat, k: nat)
    requires n <= |t.jobs| && k < |t.jobs| && Tokens(t, n, available).0.jobs[k].status == Running
    ensures Tokens(t, n, available).0.jobs[k] == t.jobs[k]
  {
    if n > 0 { TokensKeepRunning(t, n - 1, available, k); }
  }

  /** The only way to run is to be claimed, and the worker that claimed stays the worker. */
  lemma OnlyClaimsStart(t: Table, max: nat, step: JobStep, k: nat)
    requires k < |Step(t, max, step).jobs| && Step(t, max, step).jobs[k].status == Running
    ensures var j := Step(t, max, step).jobs[k];
            || (k < |t.jobs| && t.jobs[k].status == Running && t.jobs[k].worker == j.worker)
            || (step.ClaimStep? && step.k == k && j.worker == Some(step.worker)
                && Claim(t, k, step.worker, max, step.given, t.now + step.late).1 == Claimed)
  {
    if step.ReserveStep? {
      var s := t.(jobs := Sweep(t.jobs, t.now));
      TokensKeepRunning(s, |s.jobs|, Available(s.jobs, max), k);
    }
  }

  lemma {:induction false} RunningWasClaimed(max: nat, steps: seq<JobStep>, n: nat, k: nat) returns (m: nat)
    requires n <= |steps| && k < |RunJobs(max, steps[..n]).jobs| && RunJobs(max, steps[..n]).jobs[k].status == Running
    ensures m < n && ClaimsAt(max, steps, m, k) && RunJobs(max, steps[..n]).jobs[k].worker == Some(steps[m].worker)
  {
    assert n > 0;
    RunStep(max, steps, n - 1);
    var t := RunJobs(max, steps[..n - 1]);
    OnlyClaimsStart(t, max, steps[n - 1], k);
    if k < |t.jobs| && t.jobs[k].status == Running && t.jobs[k].worker == RunJobs(max, steps[..n]).jobs[k].worker {
      m := RunningWasClaimed(max, steps, n - 1, k);
    } else {
      m := n - 1;
    }
  }

  /** A job is dispatched only by the worker that claimed it. */
  lemma DispatchByTheClaimant(max: nat, steps: seq<JobStep>, n: nat, k: nat)
    requires DispatchesAt(max, steps, n, k)
    ensures exists m: nat :: m < n && ClaimsAt(max, steps, m, k) && steps[m].worker == steps[n].worker
  {
    var m := RunningWasClaimed(max, steps, n, k);
  }

  /** Once a reservation is gone, however it ended, its token never claims the job and changes nothing. */
  lemma LostReservationNeverClaims(max: nat, steps: seq<JobStep>, m: nat, n: nat, k: nat, token: LaunchToken, worker: Worker, time: nat)
    requires m <= n <= |steps| && k < |RunJobs(max, steps[..m]).jobs|
    requires token < RunJobs(max, steps[..m]).nextToken && RunJobs(max, steps[..m]).jobs[k].token != Some(token)
    ensures var t := RunJobs(max, steps[..n]); Claim(t, k, worker, max, Some(token), time) == (t, TerminalJob)
  {
    RunMoves(max, steps, m, n);
  }

  /** Two observations of a job with the same version are the same row. */
  lemma SameVersionSameRow(max: nat, steps: seq<JobStep>, m: nat, n: nat, k: nat)
    requires m <= n <= |steps| && k < |RunJobs(max, steps[..m]).jobs|
    ensures k < |RunJobs(max, steps[..n]).jobs|
    ensures RunJobs(max, steps[..m]).jobs[k].version <= RunJobs(max, steps[..n]).jobs[k].version
    ensures RunJobs(max, steps[..m]).jobs[k].version == RunJobs(max, steps[..n]).jobs[k].version
            ==> RunJobs(max, steps[..m]).jobs[k] == RunJobs(max, steps[..n]).jobs[k]
  {
    RunMoves(max, steps, m, n);
  }

  // ----- What a call means for its caller -----

  /** Nothing but row k differs, and its version says so. */
  ghost predicate OnlyJob(t: Table, t': Table, k: nat) {
    && k < |t.jobs| && t' == t.(jobs := t'.jobs) && |t'.jobs| == |t.jobs| && t'.jobs[k].version == t.jobs[k].version + 1
    && forall j :: 0 <= j < |t.jobs| && j != k ==> t'.jobs[j] == t.jobs[j]
  }

  /** The job waits under this token, is neither cancelled nor overdue. */
  predicate Awaits(t: Table, k: nat, token: Option<LaunchToken>) {
    && k < |t.jobs| && t.jobs[k].status == Queued && t.jobs[k].token == token
    && !t.jobs[k].cancelRequested && !Overdue(t.jobs[k], t.now)
  }

  /** A claim succeeds exactly below the limit for a job that awaits it, takes one slot that a reservation already held,
      and after a terminal answer its token never succeeds. */
  lemma ClaimMeaning(t: Table, max: nat, k: nat, worker: Worker, token: Option<LaunchToken>, time: nat)
    ensures var (t', r) := Claim(t, k, worker, max, token, time);
            && (r == NoSuchJob <==> k >= |t.jobs|)
            && (r == Claimed <==> Awaits(t, k, token) && Count(t.jobs, Active) < max && !Overdue(t.jobs[k], time))
            && (r == WaitForCapacity <==> Awaits(t, k, token) && Count(t.jobs, Active) >= max)
            && (r in {NoSuchJob, WaitForCapacity} ==> t' == t)
            && (r == Claimed ==>
                  && OnlyJob(t, t', k) && t'.jobs[k].status == Running && t'.jobs[k].worker == Some(worker)
                  && t'.jobs[k].token.None? && t'.jobs[k].phase == NotDispatched && !t'.jobs[k].cancelRequested
                  && Count(t'.jobs, Active) == Count(t.jobs, Active) + 1
                  && Count(t'.jobs, Occupies) == Count(t.jobs, Occupies) + (if token.Some? then 0 else 1))
            && (r == TerminalJob ==>
                  && (t' == t || (OnlyJob(t, t', k) && TerminalStatus(t'.jobs[k].status)))
                  && forall other, later :: Claim(t', k, other, max, token, later) == (t', TerminalJob))
            && (TableOk(t) ==> TableOk(t'))
  {
    if Claim(t, k, worker, max, token, time).1 == Claimed { ClaimCounts(t, max, k, worker, token, time); }
    if Claim(t, k, worker, max, token, time).1 == TerminalJob { TerminalIsFinal(t, max, k, worker, token, time); }
    if TableOk(t) { ClaimMoves(t, max, k, worker, token, time); }
  }

  lemma TerminalIsFinal(t: Table, max: nat, k: nat, worker: Worker, token: Option<LaunchToken>, time: nat)
    requires Claim(t, k, worker, max, token, time).1 == TerminalJob
    ensures var t' := Claim(t, k, worker, max, token, time).0;
            && (t' == t || (OnlyJob(t, t', k) && TerminalStatus(t'.jobs[k].status)))
            && forall other, later :: Claim(t', k, other, max, token, later) == (t', TerminalJob)
  {
  }

  lemma ClaimCounts(t: Table, max: nat, k: nat, worker: Worker, token: Option<LaunchToken>, time: nat)
    requires Claim(t, k, worker, max, token, time).1 == Claimed
    ensures var t' := Claim(t, k, worker, max, token, time).0;
            && Count(t'.jobs, Active) == Count(t.jobs, Active) + 1
            && Count(t'.jobs, Occupies) == Count(t.jobs, Occupies) + (if token.Some? then 0 else 1)
  {
    var t' := Claim(t, k, worker, max, token, time).0;
    CountUpdate(t.jobs, k, t'.jobs[k], Active);
    CountUpdate(t.jobs, k, t'.jobs[k], Occupies);
  }

  /** The boundary admits exactly the worker of a running, uncancelled job that is not past it, and nobody after it. */
  lemma DispatchMeaning(t: Table, k: nat, worker: Worker)
    ensures var (t', admitted) := MarkMayDispatch(t, k, worker);
            && (admitted <==> k < |t.jobs| && t.jobs[k].status == Running && t.jobs[k].worker == Some(worker)
                              && t.jobs[k].phase == NotDispatched && !t.jobs[k].cancelRequested)
            && (admitted ==> OnlyJob(t, t', k) && t'.jobs[k] == t.jobs[k].(phase := MayDispatch, version := t'.jobs[k].version))
            && (admitted ==> forall other :: MarkMayDispatch(t', k, other) == (t', false))
            && (!admitted ==> t' == t || (OnlyJob(t, t', k) && t.jobs[k].cancelRequested && t'.jobs[k].status == Cancelled
                                          && t'.jobs[k].phase == NotDispatched))
            && (TableOk(t) ==> TableOk(t'))
  {
  }

  /** A cancel is recorded on every job that is not over; from then on nobody claims or dispatches the job. */
  lemma CancelMeaning(t: Table, k: nat)
    ensures var t' := RequestCancel(t, k);
            && (k >= |t.jobs| || TerminalStatus(t.jobs[k].status) ==> t' == t)
            && (k < |t.jobs| && !TerminalStatus(t.jobs[k].status) ==>
                  && OnlyJob(t, t', k) && t'.jobs[k].cancelRequested
                  && t'.jobs[k].status == (if t.jobs[k].status == Queued then Cancelled else t.jobs[k].status)
                  && Finished(t', k))
            && (TableOk(t) ==> TableOk(t'))
  {
  }

  /** No worker can claim the job or take it past the boundary. */
  ghost predicate Finished(t: Table, k: nat) {
    && (forall worker, max, token, time :: Claim(t, k, worker, max, token, time).1 != Claimed)
    && (forall worker :: !MarkMayDispatch(t, k, worker).1)
  }

  lemma ReservationsKeepOk(t: Table, max: nat)
    requires TableOk(t)
    ensures TableOk(ReserveLaunches(t, max).0)
    ensures Count(t.jobs, Occupies) <= max ==> Count(ReserveLaunches(t, max).0.jobs, Occupies) <= max
  {
    ReserveKeeps(t, max);
  }

  lemma SweepsKeepOk(t: Table, dead: set<(nat, LaunchToken)>, probes: map<nat, Probe>)
    requires TableOk(t)
    ensures TableOk(RecoverStale(t, dead)) && TableOk(Reconcile(t, probes))
  {
    forall i | 0 <= i < |t.jobs| ensures JobOk(t, RecoverStale(t, dead).jobs[i]) { SweepShrinks(t, 0, RecoverStep(dead), i); }
    forall i | 0 <= i < |t.jobs| ensures JobOk(t, Reconcile(t, probes).jobs[i]) { SweepShrinks(t, 0, ReconcileStep(probes), i); }
  }
}
