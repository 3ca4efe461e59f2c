/** Exclusion, ticket order and capacity over whole runs of the system. */
module AdmissionTheorems {
  import opened Prelude
  import opened WorkflowModels
  import opened ResourceClaims
  import opened AdmissionTables
  import opened AdmissionProofs
  import opened WorkflowTransactions
  import opened WorkflowSystem
  import opened WorkflowInvariants
  import opened WorkflowStoreProofs
  import opened WorkflowSystemProofs
  import opened WorkflowTheorems

  function Limits(cfg: Config): string -> nat { category => Limit(cfg, category) }

  /** The two admission tables move together, and permits stay within their limits. */
  ghost predicate TableStep(cfg: Config, s: Store, s': Store) {
    RequestStep(s.requests, s'.requests) && PermitStep(s.permits, s'.permits) && WithinLimits(s'.permits, Limits(cfg))
  }

  lemma SameTables(cfg: Config, s: Store, s': Store)
    requires WithinLimits(s.permits, Limits(cfg)) && s'.requests == s.requests && s'.permits == s.permits
    ensures TableStep(cfg, s, s')
  {
  }

  lemma RequestsRetire(cfg: Config, s: Store, s': Store)
    requires WithinLimits(s.permits, Limits(cfg)) && s'.permits == s.permits && |s'.requests| == |s.requests|
    requires forall k :: 0 <= k < |s.requests| ==> Retires(s.requests[k], s'.requests[k])
    ensures TableStep(cfg, s, s')
  {
    RetiringIsAStep(s.requests, s'.requests);
  }

  /** A waiting request has no children, so releasing it never quarantines it. */
  lemma ReleaseRetires(cfg: Config, s: Store, k: nat, owner: Token, s': Store)
    requires StoreOk(s) && WithinLimits(s.permits, Limits(cfg))
    requires s'.requests == ReleaseRequest(s.requests, s.permits, k, owner).0 && s'.permits == s.permits
    ensures TableStep(cfg, s, s')
  {
    if k < |s.requests| && HasLiveChild(s.permits, k) {
      var c :| 0 <= c < |s.permits| && s.permits[c].parent == Some(k) && s.permits[c].state != Released;
      assert PermitOk(s, c);
    }
    RequestsRetire(cfg, s, s');
  }

  lemma RecoverTables(cfg: Config, s: Store, w: nat)
    requires WithinLimits(s.permits, Limits(cfg))
    ensures TableStep(cfg, s, Recover(s, w))
  {
    if w < |s.workflows| && NeedsRecovery(s, w) {
      RecoverShape(s, w);
      RequestsRetire(cfg, s, Recover(s, w));
    } else {
      SameTables(cfg, s, Recover(s, w));
    }
  }

  lemma ResolveTables(cfg: Config, s: Store, k: nat, owner: Token)
    requires WithinLimits(s.permits, Limits(cfg))
    ensures TableStep(cfg, s, ResolveQuarantined(s, k, owner).store)
  {
    RequestsRetire(cfg, s, ResolveQuarantined(s, k, owner).store);
  }

  lemma EnvironmentTables(cfg: Config, sys: System, step: Step)
    requires OperatorStep(step)
    requires WithinLimits(sys.store.permits, Limits(cfg))
    ensures TableStep(cfg, sys.store, Environment(sys, step).store)
  {
    var s := sys.store;
    if step.RecoverStep? { RecoverTables(cfg, s, step.w); }
    else if step.ResolveRequest? && step.request < |s.requests| { ResolveTables(cfg, s, step.request, s.requests[step.request].owner); }
    else { SameTables(cfg, s, Environment(sys, step).store); }
  }

  lemma ClaimTables(cfg: Config, sys: System, c: Token, k: Coordinator)
    requires StoreOk(sys.store) && WithinLimits(sys.store.permits, Limits(cfg))
    ensures TableStep(cfg, sys.store, ClaimStep(cfg, sys, c, k).store)
  {
    var s' := ClaimStep(cfg, sys, c, k).store;
    if s'.requests == sys.store.requests { SameTables(cfg, sys.store, s'); }
    else { ReleaseRetires(cfg, sys.store, k.waits[k.granted.value].request, k.waits[k.granted.value].owner, s'); }
  }

  lemma CoordinateTables(cfg: Config, sys: System, step: Step)
    requires CoordinatorStep(step)
    requires StoreOk(sys.store) && WithinLimits(sys.store.permits, Limits(cfg))
    ensures TableStep(cfg, sys.store, Coordinate(cfg, sys, step).store)
  {
    var s := sys.store;
    var s' := Coordinate(cfg, sys, step).store;
    if !step.StartCoordinator? && step.c in sys.coordinators {
      var k := sys.coordinators[step.c];
      if step.ReserveFor? { ReserveTables(cfg, sys, step.c, k, step.i, step.claims, step.policy); }
      else if step.ClaimFor? { ClaimTables(cfg, sys, step.c, k); }
      else if step.AbandonWait? && step.i in k.waits { ReleaseRetires(cfg, s, k.waits[step.i].request, k.waits[step.i].owner, s'); }
      else if step.AbandonClaim? && k.claimed.Some? {
        ReleaseRetires(cfg, s, k.claimed.value.wait.request, k.claimed.value.wait.owner, s');
      }
      else if step.BindFor? { RequestsRetire(cfg, s, s'); }
      else { SameTables(cfg, s, s'); }
    } else {
      SameTables(cfg, s, s');
    }
  }

  lemma ReserveTables(cfg: Config, sys: System, c: Token, k: Coordinator, i: nat, claims: set<Claim>, policy: nat)
    requires WithinLimits(sys.store.permits, Limits(cfg))
    ensures TableStep(cfg, sys.store, ReserveStep(sys, c, k, i, claims, policy).store)
  {
    var s := sys.store;
    var s' := ReserveStep(sys, c, k, i, claims, policy).store;
    if s'.requests == s.requests { SameTables(cfg, s, s'); }
    else {
      var known := if i in k.waits then Some(k.waits[i].request) else None;
      var owner := if i in k.waits then k.waits[i].owner else s.nextToken;
      ReserveIsAStep(s.requests, known, Some(OpRef(k.w, i)), owner, "workflow_step", claims, policy);
    }
  }

  lemma SettleTables(cfg: Config, sys: System, t: Token)
    requires StoreOk(sys.store) && t in sys.attempts && AttemptOk(sys.store, t, sys.attempts[t])
    requires WithinLimits(sys.store.permits, Limits(cfg))
    ensures TableStep(cfg, sys.store, SettleResourceStep(sys, t, sys.attempts[t]).store)
  {
    var s, a := sys.store, sys.attempts[t];
    var s' := SettleResourceStep(sys, t, a).store;
    if a.stage.Lost? || (a.stage.Closing? && a.stage.settled == OpUncertain) { RequestsRetire(cfg, s, s'); }
    else if a.stage.Closing? { ReleaseRetires(cfg, s, a.request, a.owner, s'); }
    else { SameTables(cfg, s, s'); }
  }

  lemma WorkTables(cfg: Config, sys: System, step: Step)
    requires AttemptStep(step)
    requires StoreOk(sys.store) && (step.t in sys.attempts ==> AttemptOk(sys.store, step.t, sys.attempts[step.t]))
    requires WithinLimits(sys.store.permits, Limits(cfg))
    ensures TableStep(cfg, sys.store, Work(sys, step).store)
  {
    if step.SettleResource? && step.t in sys.attempts { SettleTables(cfg, sys, step.t); }
    else { SameTables(cfg, sys.store, Work(sys, step).store); }
  }

  lemma NativeReserveTables(cfg: Config, sys: System, known: Option<nat>, category: string, claims: set<Claim>, policy: nat)
    requires WithinLimits(sys.store.permits, Limits(cfg))
    ensures TableStep(cfg, sys.store, NativeReserveStep(sys, known, category, claims, policy).store)
  {
    var s := sys.store;
    var s' := NativeReserveStep(sys, known, category, claims, policy).store;
    if known.None? || (known.value < |s.requests| && s.requests[known.value].op.None?) {
      ReserveIsAStep(s.requests, known, None, if known.Some? then s.requests[known.value].owner else s.nextToken, category, claims, policy);
    } else {
      SameTables(cfg, s, s');
    }
  }

  lemma PermitReserveTables(cfg: Config, sys: System, known: Option<nat>, category: string, weight: nat, parent: Option<nat>, policy: nat)
    requires WithinLimits(sys.store.permits, Limits(cfg))
    ensures TableStep(cfg, sys.store, PermitReserveStep(cfg, sys, known, category, weight, parent, policy).store)
  {
    var s := sys.store;
    var s' := PermitReserveStep(cfg, sys, known, category, weight, parent, policy).store;
    if s'.permits == s.permits { SameTables(cfg, s, s'); }
    else {
      var owner := if known.Some? then s.permits[known.value].owner else s.nextToken;
      ReservePermitWithinLimits(s.permits, known, category, owner, weight, Limits(cfg), parent);
    }
  }

  lemma NativeRetireTables(cfg: Config, sys: System, step: Step)
    requires StoreOk(sys.store) && WithinLimits(sys.store.permits, Limits(cfg))
    requires step.NativeRelease? || step.QuarantineHeld? || step.RecoverNative?
    ensures TableStep(cfg, sys.store, Share(cfg, sys, step).store)
  {
    var s := sys.store;
    var s' := Share(cfg, sys, step).store;
    if s'.requests == s.requests { SameTables(cfg, s, s'); }
    else if step.NativeRelease? { ReleaseRetires(cfg, s, step.request, s.requests[step.request].owner, s'); }
    else { RequestsRetire(cfg, s, s'); }
  }

  lemma ShareTables(cfg: Config, sys: System, step: Step)
    requires SharedStep(step)
    requires StoreOk(sys.store) && WithinLimits(sys.store.permits, Limits(cfg))
    ensures TableStep(cfg, sys.store, Share(cfg, sys, step).store)
  {
    if step.NativeReserve? { NativeReserveTables(cfg, sys, step.known, step.category, step.claims, step.policy); }
    else if step.PermitReserve? { PermitReserveTables(cfg, sys, step.known, step.category, step.weight, step.parent, step.policy); }
    else if step.NativeRelease? || step.QuarantineHeld? || step.RecoverNative? { NativeRetireTables(cfg, sys, step); }
    else { PermitTables(cfg, sys, step); }
  }

  lemma PermitTables(cfg: Config, sys: System, step: Step)
    requires step.PermitRelease? || step.PermitQuarantine? || step.PermitDeath?
    requires WithinLimits(sys.store.permits, Limits(cfg))
    ensures TableStep(cfg, sys.store, Share(cfg, sys, step).store)
  {
    var s := sys.store;
    var s' := Share(cfg, sys, step).store;
    forall k | 0 <= k < |s.permits| ensures PermitRetires(s.permits[k], s'.permits[k]) { }
    PermitRetiringIsAStep(s.permits, s'.permits, Limits(cfg));
    RetiringIsAStep(s.requests, s'.requests);
  }

  lemma StepTables(cfg: Config, sys: System, step: Step)
    requires SystemOk(sys) && WithinLimits(sys.store.permits, Limits(cfg))
    ensures TableStep(cfg, sys.store, Apply(cfg, sys, step).store)
  {
    if OperatorStep(step) {
      EnvironmentTables(cfg, sys, step);
    } else if AttemptStep(step) {
      WorkTables(cfg, sys, step);
    } else if SharedStep(step) {
      ShareTables(cfg, sys, step);
    } else {
      CoordinateTables(cfg, sys, step);
    }
  }

  /** The tables of a run: every state is exclusive and within limits, every step is a table step. */
  ghost predicate TablesLawful(cfg: Config, h: seq<Store>) {
    && (forall n :: 0 <= n < |h| ==> Exclusive(h[n].requests) && WithinLimits(h[n].permits, Limits(cfg)))
    && (forall m, n :: 0 <= m < |h| && n == m + 1 && n < |h| ==> TableStep(cfg, h[m], h[n]))
  }

  lemma {:induction false} RunTables(cfg: Config, steps: seq<Step>)
    ensures Exclusive(Run(cfg, steps).store.requests) && WithinLimits(Run(cfg, steps).store.permits, Limits(cfg))
  {
    if steps != [] {
      var before := steps[..|steps| - 1];
      RunTables(cfg, before);
      RunOk(cfg, before);
      StepTables(cfg, Run(cfg, before), steps[|steps| - 1]);
      ExclusionKept(Run(cfg, before).store.requests, Run(cfg, steps).store.requests);
    }
  }

  lemma StepTablesAt(cfg: Config, steps: seq<Step>, m: nat)
    requires m < |steps|
    ensures TableStep(cfg, Run(cfg, steps[..m]).store, Run(cfg, steps[..m + 1]).store)
  {
    var p := steps[..m + 1];
    assert p[..|p| - 1] == steps[..m] && p[|p| - 1] == steps[m];
    RunOk(cfg, steps[..m]);
    RunTables(cfg, steps[..m]);
    StepTables(cfg, Run(cfg, steps[..m]), steps[m]);
  }

  lemma TablesOfRun(cfg: Config, steps: seq<Step>)
    ensures TablesLawful(cfg, History(cfg, steps))
  {
    var h := History(cfg, steps);
    forall n | 0 <= n < |h| ensures Exclusive(h[n].requests) && WithinLimits(h[n].permits, Limits(cfg)) { RunTables(cfg, steps[..n]); }
    forall m, n | 0 <= m < |h| && n == m + 1 && n < |h| ensures TableStep(cfg, h[m], h[n]) { StepTablesAt(cfg, steps, m); }
  }

  // ----- Ticket order -----

  lemma {:induction false} NeverPendingAgain(cfg: Config, h: seq<Store>, m: nat, n: nat, j: nat)
    requires TablesLawful(cfg, h) && m <= n < |h| && j < |h[m].requests| && h[m].requests[j].state != Pending
    ensures j < |h[n].requests| && h[n].requests[j].state != Pending
    decreases n
  {
    if m < n { NeverPendingAgain(cfg, h, m, n - 1, j); assert TableStep(cfg, h[n - 1], h[n]); }
  }

  lemma {:induction false} PermitNeverPendingAgain(cfg: Config, h: seq<Store>, m: nat, n: nat, j: nat)
    requires TablesLawful(cfg, h) && m <= n < |h| && j < |h[m].permits| && h[m].permits[j].state != Pending
    ensures j < |h[n].permits| && h[n].permits[j].state != Pending && h[n].permits[j].category == h[m].permits[j].category
    decreases n
  {
    if m < n {
      PermitNeverPendingAgain(cfg, h, m, n - 1, j);
      assert TableStep(cfg, h[n - 1], h[n]);
      assert SameColumns(h[n - 1].permits[j], h[n].permits[j]);
    }
  }

  lemma {:induction false} ClaimsFixed(cfg: Config, h: seq<Store>, m: nat, n: nat, j: nat)
    requires TablesLawful(cfg, h) && m <= n < |h| && j < |h[m].requests|
    ensures j < |h[n].requests| && h[n].requests[j].claims == h[m].requests[j].claims
    decreases n
  {
    if m < n { ClaimsFixed(cfg, h, m, n - 1, j); assert TableStep(cfg, h[n - 1], h[n]); }
  }

  /** Request k is activated by the step from state m to the next. */
  ghost predicate ActivatesAt(h: seq<Store>, m: nat, k: nat) {
    m + 1 < |h| && NewlyHeld(h[m].requests, h[m + 1].requests, k)
  }

  ghost predicate PermitActivatesAt(h: seq<Store>, m: nat, k: nat) {
    m + 1 < |h| && PermitNewlyHeld(h[m].permits, h[m + 1].permits, k)
  }

  /** Conflicting requests are activated in strictly increasing ticket order. */
  lemma TicketOrder(cfg: Config, steps: seq<Step>, m: nat, n: nat, j: nat, k: nat)
    requires ActivatesAt(History(cfg, steps), m, k) && ActivatesAt(History(cfg, steps), n, j) && j < k
    requires SetsConflict(History(cfg, steps)[m + 1].requests[k].claims, History(cfg, steps)[m + 1].requests[j].claims)
    ensures n < m
  {
    var h := History(cfg, steps);
    TablesOfRun(cfg, steps);
    assert TableStep(cfg, h[m], h[m + 1]) && Activated(h[m].requests, h[m + 1].requests, k);
    assert TableStep(cfg, h[n], h[n + 1]) && Activated(h[n].requests, h[n + 1].requests, j);
    if m <= n { NeverPendingAgain(cfg, h, m, n, j); }
  }

  /** Permits of one category are activated in strictly increasing ticket order. */
  lemma PermitTicketOrder(cfg: Config, steps: seq<Step>, m: nat, n: nat, j: nat, k: nat)
    requires PermitActivatesAt(History(cfg, steps), m, k) && PermitActivatesAt(History(cfg, steps), n, j)
    requires j < k
    requires History(cfg, steps)[m + 1].permits[j].category == History(cfg, steps)[m + 1].permits[k].category
    ensures n < m
  {
    var h := History(cfg, steps);
    TablesOfRun(cfg, steps);
    assert TableStep(cfg, h[m], h[m + 1]) && PermitActivated(h[m].permits, h[m + 1].permits, k);
    assert TableStep(cfg, h[n], h[n + 1]) && PermitActivated(h[n].permits, h[n + 1].permits, j);
    if m <= n { PermitNeverPendingAgain(cfg, h, m, n, j); }
  }

  // ----- Exclusion and capacity -----

  /** In every reachable state, requests that hold their claims exclude each other, and so does work nested under them. */
  lemma HoldersNeverConflict(cfg: Config, steps: seq<Step>, j: nat, k: nat, a: set<Claim>, b: set<Claim>)
    requires j < |Run(cfg, steps).store.requests| && k < |Run(cfg, steps).store.requests| && j != k
    requires Held(Run(cfg, steps).store.requests[j].state) && Held(Run(cfg, steps).store.requests[k].state)
    requires CoveredBy(a, Run(cfg, steps).store.requests[j].claims) && CoveredBy(b, Run(cfg, steps).store.requests[k].claims)
    ensures !SetsConflict(Run(cfg, steps).store.requests[j].claims, Run(cfg, steps).store.requests[k].claims)
    ensures !SetsConflict(a, b)
  {
    RunTables(cfg, steps);
    NestedHoldersExclude(Run(cfg, steps).store.requests, j, k, a, b);
  }

  /** In every reachable state, the weight held in a category is within its limit. */
  lemma CapacityNeverExceeded(cfg: Config, steps: seq<Step>, category: string)
    ensures HeldWeight(Run(cfg, steps).store.permits, category) <= Limit(cfg, category)
  {
    RunTables(cfg, steps);
    assert HeldWeight(Run(cfg, steps).store.permits, category) <= Limits(cfg)(category);
  }
}
