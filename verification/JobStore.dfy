/** `JobStore` of core/jobs.py as an object whose rows its statements update in place. */
module JobStore {
  import opened Prelude
  import opened JobTable
  import opened JobTheorems

  class Store {
    var now: nat
    var nextToken: LaunchToken
    var jobs: seq<Job>

    function View(): Table
      reads this
    {
      Table(now, nextToken, jobs)
    }

    /** Tokens were handed out, and what is queued has not been dispatched. */
    ghost predicate Valid()
      reads this
    {
      TableOk(View())
    }

    constructor ()
      ensures View() == Table(0, 0, []) && Valid()
    {
      now, nextToken, jobs := 0, 0, [];
    }

    /** `UPDATE jobs SET ..., version=version+1 WHERE id=?`. */
    method UpdateRow(k: nat, j: Job)
      requires k < |jobs|
      modifies this`jobs
      ensures View() == Put(old(View()), k, j)
    {
      jobs := jobs[k := j.(version := jobs[k].version + 1)];
    }

    /** The transaction of `reserve_worker_launches`: sweep the queue, count, hand out tokens in queue order. */
    method ReserveWorkerLaunches(max: nat) returns (reservations: seq<(nat, LaunchToken)>, queuedRemaining: nat)
      modifies this`jobs, this`nextToken
      ensures queuedRemaining == Count(jobs, IsQueued)
      ensures old(Valid()) ==> Valid() && (Count(old(jobs), Occupies) <= max ==> Count(jobs, Occupies) <= max)
      ensures (View(), reservations) == ReserveLaunches(old(View()), max)
    {
      if Valid() { ReservationsKeepOk(View(), max); }
      reservations := HandOutTokens(max);
      queuedRemaining := Count(jobs, IsQueued);
    }

    method HandOutTokens(max: nat) returns (reservations: seq<(nat, LaunchToken)>)
      modifies this`jobs, this`nextToken
      ensures (View(), reservations) == ReserveLaunches(old(View()), max)
    {
      SweepQueue();
      ghost var swept := View();
      var available := Available(jobs, max);
      reservations := [];
      for k := 0 to |jobs|
        invariant |jobs| == |swept.jobs| && now == swept.now
        invariant (View(), reservations) == Tokens(swept, k, available)
      {
        if |reservations| < available && Eligible(jobs[k], now) {
          reservations := reservations + [(k, nextToken)];
          jobs := jobs[k := jobs[k].(token := Some(nextToken), launched := Some(now), version := jobs[k].version + 1)];
          nextToken := nextToken + 1;
        }
      }
    }

    method SweepQueue()
      modifies this`jobs
      ensures jobs == Sweep(old(jobs), now)
    {
      var n := |jobs|;
      for k := 0 to n
        invariant |jobs| == n == |old(jobs)|
        invariant forall i :: 0 <= i < n ==> jobs[i] == if i < k then Swept(old(jobs)[i], now) else old(jobs)[i]
      {
        var j := jobs[k];
        if j.status == Queued && j.cancelRequested {
          jobs := jobs[k := j.(status := Cancelled, token := None, launched := None, version := j.version + 1)];
        } else if j.status == Queued && j.deadline.Some? && j.deadline.value <= now {
          jobs := jobs[k := j.(status := TimedOut, error := QUEUE_TIMEOUT_ERROR, token := None, launched := None,
                               version := j.version + 1)];
        }
      }
    }

    /** `_recover_stale_launch_reservations`, given the reservations whose worker is not alive. */
    method RecoverStaleReservations(dead: set<(nat, LaunchToken)>)
      modifies this`jobs
      ensures old(Valid()) ==> Valid()
      ensures View() == RecoverStale(old(View()), dead)
    {
      if Valid() { SweepsKeepOk(View(), dead, map[]); }
      ClearReservations(dead);
    }

    method ClearReservations(dead: set<(nat, LaunchToken)>)
      modifies this`jobs
      ensures View() == RecoverStale(old(View()), dead)
    {
      var n := |jobs|;
      for k := 0 to n
        invariant |jobs| == n == |old(jobs)|
        invariant forall i :: 0 <= i < n ==> jobs[i] == if i < k then Unreserved(old(jobs)[i], i, dead, now) else old(jobs)[i]
      {
        var j := jobs[k];
        if j.status == Queued && j.token.Some? && (k, j.token.value) in dead
           && (j.launched.None? || now >= j.launched.value + LAUNCH_RESERVATION_STALE) {
          jobs := jobs[k := j.(token := None, launched := None, worker := None, version := j.version + 1)];
        }
      }
    }

    /** `_reconcile`, given what the liveness probes found. */
    method ReconcileRows(probes: map<nat, Probe>)
      modifies this`jobs
      ensures old(Valid()) ==> Valid()
      ensures View() == Reconcile(old(View()), probes)
    {
      if Valid() { SweepsKeepOk(View(), {}, probes); }
      ApplyProbes(probes);
    }

    method ApplyProbes(probes: map<nat, Probe>)
      modifies this`jobs
      ensures View() == Reconcile(old(View()), probes)
    {
      var n := |jobs|;
      for k := 0 to n
        invariant |jobs| == n == |old(jobs)|
        invariant forall i :: 0 <= i < n ==>
            jobs[i] == if i < k && i in probes then Reconciled(old(jobs)[i], probes[i], now) else old(jobs)[i]
      {
        if k in probes {
          var j := ReconcileRow(jobs[k], probes[k], now);
          jobs := jobs[k := j];
        }
      }
    }

    method ClaimForExecution(k: nat, worker: Worker, max: nat, token: Option<LaunchToken>, claimTime: nat) returns (r: ClaimResult)
      modifies this`jobs
      ensures |jobs| == |old(jobs)| && (old(Valid()) ==> Valid())
      ensures r == Claimed <==>
                Awaits(old(View()), k, token) && Count(old(jobs), Active) < max && !Overdue(old(jobs)[k], claimTime)
      ensures r == WaitForCapacity <==> Awaits(old(View()), k, token) && Count(old(jobs), Active) >= max
      ensures r == NoSuchJob <==> k >= |jobs|
      ensures r in {NoSuchJob, WaitForCapacity} ==> View() == old(View())
      ensures r == Claimed ==>
                && OnlyJob(old(View()), View(), k) && jobs[k].status == Running && jobs[k].worker == Some(worker)
                && jobs[k].token.None? && jobs[k].phase == NotDispatched && !jobs[k].cancelRequested
                && Count(jobs, Active) == Count(old(jobs), Active) + 1
                && Count(jobs, Occupies) == Count(old(jobs), Occupies) + (if token.Some? then 0 else 1)
      ensures r == TerminalJob ==>
                && (View() == old(View()) || (OnlyJob(old(View()), View(), k) && TerminalStatus(jobs[k].status)))
                && forall other, later :: Claim(View(), k, other, max, token, later) == (View(), TerminalJob)
      ensures (View(), r) == Claim(old(View()), k, worker, max, token, claimTime)
    {
      ClaimMeaning(View(), max, k, worker, token, claimTime);
      if k >= |jobs| { return NoSuchJob; }
      var j := jobs[k];
      if j.status != Queued || j.token != token { return TerminalJob; }
      if j.cancelRequested {
        UpdateRow(k, j.(status := Cancelled, token := None, launched := None));
        return TerminalJob;
      }
      if Overdue(j, now) {
        UpdateRow(k, j.(status := TimedOut, error := QUEUE_TIMEOUT_ERROR, token := None, launched := None));
        return TerminalJob;
      }
      if Count(jobs, Active) >= max { return WaitForCapacity; }
      if Overdue(j, claimTime) {
        UpdateRow(k, j.(status := TimedOut, error := QUEUE_TIMEOUT_ERROR, token := None, launched := None));
        return TerminalJob;
      }
      UpdateRow(k, j.(status := Running, phase := NotDispatched, token := None, launched := None, worker := Some(worker)));
      return Claimed;
    }

    method MarkJobMayDispatch(k: nat, worker: Worker) returns (admitted: bool)
      modifies this`jobs
      ensures |jobs| == |old(jobs)| && (old(Valid()) ==> Valid())
      ensures admitted <==>
                k < |jobs| && old(jobs)[k].status == Running && old(jobs)[k].worker == Some(worker)
                && old(jobs)[k].phase == NotDispatched && !old(jobs)[k].cancelRequested
      ensures admitted ==>
                && OnlyJob(old(View()), View(), k) && jobs[k] == old(jobs)[k].(phase := MayDispatch, version := jobs[k].version)
                && forall other :: MarkMayDispatch(View(), k, other) == (View(), false)
      ensures !admitted && View() != old(View()) ==>
                && OnlyJob(old(View()), View(), k) && old(jobs)[k].cancelRequested
                && jobs[k].status == Cancelled && jobs[k].phase == NotDispatched
      ensures (View(), admitted) == MarkMayDispatch(old(View()), k, worker)
    {
      DispatchMeaning(View(), k, worker);
      if k >= |jobs| { return false; }
      var j := jobs[k];
      admitted := j.status == Running && !j.cancelRequested && j.phase == NotDispatched && j.worker == Some(worker);
      if admitted {
        UpdateRow(k, j.(phase := MayDispatch));
      } else if j.status == Running && j.cancelRequested && j.phase == NotDispatched && j.worker == Some(worker) {
        UpdateRow(k, j.(status := Cancelled));
      }
    }

    /** The worker's last update: the job is over. */
    method ReportEnd(k: nat, status: Status, error: string)
      requires k < |jobs| && TerminalStatus(status)
      modifies this`jobs
      ensures OnlyJob(old(View()), View(), k) && jobs[k] == old(jobs)[k].(status := status, error := error, version := jobs[k].version)
      ensures old(Valid()) ==> Valid()
    {
      UpdateRow(k, jobs[k].(status := status, error := error));
    }

    /** `cancel`; an orphan's process tree is terminated between the two transactions. */
    method CancelJob(k: nat) returns (found: bool)
      modifies this`jobs
      ensures |jobs| == |old(jobs)| && (old(Valid()) ==> Valid())
      ensures found <==> k < |jobs|
      ensures !found || TerminalStatus(old(jobs)[k].status) ==> View() == old(View())
      ensures found && !TerminalStatus(old(jobs)[k].status) ==>
                && OnlyJob(old(View()), View(), k) && jobs[k].cancelRequested
                && jobs[k].status == (if old(jobs)[k].status == Queued then Cancelled else old(jobs)[k].status)
                && Finished(View(), k)
      ensures View() == RequestCancel(old(View()), k)
    {
      CancelMeaning(View(), k);
      if k >= |jobs| { return false; }
      var j := jobs[k];
      if j.status == Queued {
        UpdateRow(k, j.(status := Cancelled, cancelRequested := true));
      } else if j.status == Running || j.status == Orphaned {
        UpdateRow(k, j.(cancelRequested := true));
      }
      return true;
    }
  }

  /** The status that a probe justifies, as long as the row still has the status that was probed. */
  method ReconcileRow(j: Job, probe: Probe, now: nat) returns (j': Job)
    ensures j' == Reconciled(j, probe, now)
  {
    if j.status == Running && probe.WorkerGone? {
      var status := if probe.childAlive then Orphaned else Interrupted;
      return j.(status := status, error := "", version := j.version + 1);
    }
    if j.status == Orphaned && probe.ChildGone? { return j.(status := Interrupted, error := "", version := j.version + 1); }
    if j.status == Queued && probe.QueueDeadline? && j.deadline.Some? && now >= j.deadline.value {
      return j.(status := TimedOut, error := QUEUE_TIMEOUT_ERROR, version := j.version + 1);
    }
    return j;
  }

  /** What stands between a claim and the boundary: someone may cancel before the worker looks at its row, the worker's
      resource claims may be refused, someone may cancel while they are acquired. */
  datatype Interlude = Interlude(early: bool, refused: bool, late: bool)

  /** From a claimed job to its boundary: look for a cancel, acquire the resource claims, cross. */
  method CrossOrEnd(store: Store, k: nat, worker: Worker, i: Interlude) returns (dispatched: bool)
    requires store.Valid() && k < |store.jobs| && store.jobs[k].status == Running && store.jobs[k].worker == Some(worker)
    requires store.jobs[k].phase == NotDispatched && !store.jobs[k].cancelRequested
    modifies store`jobs
    ensures store.Valid() && |store.jobs| == |old(store.jobs)|
    ensures dispatched <==> !i.early && !i.refused && !i.late
    ensures dispatched ==> store.jobs[k].phase == MayDispatch && store.jobs[k].worker == Some(worker)
    ensures !dispatched ==>
              && store.jobs[k].phase == NotDispatched
              && store.jobs[k].status == if !i.early && i.refused then FailedJob else Cancelled
    ensures forall j :: 0 <= j < |store.jobs| && j != k ==> store.jobs[j] == old(store.jobs)[j]
  {
    if i.early { var found := store.CancelJob(k); }
    if store.jobs[k].cancelRequested {
      store.ReportEnd(k, Cancelled, store.jobs[k].error);
      return false;
    }
    if i.late { var found := store.CancelJob(k); }
    if i.refused {
      store.ReportEnd(k, FailedJob, "resource admission refused");
      return false;
    }
    dispatched := store.MarkJobMayDispatch(k, worker);
  }

  /** The worker's way to its effect (scripts/job_worker.py): claim, look for a cancel, acquire the resource claims, cross
      the boundary. It gets there exactly when its claim succeeds, its resources are granted and no cancel intervenes;
      otherwise the claimed job ends cancelled or failed, without effect. */
  method ReachBoundary(store: Store, k: nat, worker: Worker, max: nat, token: Option<LaunchToken>, claimTime: nat, i: Interlude)
    returns (claim: ClaimResult, dispatched: bool)
    requires store.Valid()
    modifies store`jobs
    ensures store.Valid() && |store.jobs| == |old(store.jobs)|
    ensures claim == Claimed <==>
              Awaits(old(store.View()), k, token) && Count(old(store.jobs), Active) < max && !Overdue(old(store.jobs)[k], claimTime)
    ensures dispatched <==> claim == Claimed && !i.early && !i.refused && !i.late
    ensures dispatched ==> store.jobs[k].phase == MayDispatch && store.jobs[k].worker == Some(worker)
    ensures claim == Claimed && !dispatched ==>
              && store.jobs[k].phase == NotDispatched
              && store.jobs[k].status == if !i.early && i.refused then FailedJob else Cancelled
    ensures forall j :: 0 <= j < |store.jobs| && j != k ==> store.jobs[j] == old(store.jobs)[j]
  {
    claim := store.ClaimForExecution(k, worker, max, token, claimTime);
    if claim != Claimed { return claim, false; }
    dispatched := CrossOrEnd(store, k, worker, i);
  }
}
