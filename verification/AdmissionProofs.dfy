/** Exclusion, ticket order and capacity of the two admission tables, independent of who calls them. */
module AdmissionProofs {
  import opened Prelude
  import opened ResourceClaims
  import opened AdmissionTables

  // ----- Resource requests -----

  /** No two requests that hold their claims, active or quarantined, conflict. */
  ghost predicate Exclusive(rows: seq<Request>) {
    forall j, k :: 0 <= j < |rows| && 0 <= k < |rows| && j != k && Held(rows[j].state) && Held(rows[k].state)
      ==> !SetsConflict(rows[j].claims, rows[k].claims)
  }

  ghost predicate Conflicting(rows: seq<Request>, j: nat, k: nat)
    requires j < |rows| && k < |rows|
  {
    SetsConflict(rows[j].claims, rows[k].claims)
  }

  /** Row k became active and nothing else changed; no older waiter and no holder conflicted with it. */
  ghost predicate Activated(rows: seq<Request>, rows': seq<Request>, k: nat) {
    && |rows| <= |rows'| && k < |rows'| && rows'[k].state == Active && (k < |rows| ==> rows[k].state == Pending)
    && forall j :: 0 <= j < |rows| && j != k ==>
         && rows'[j] == rows[j]
         && (Held(rows[j].state) || (rows[j].state == Pending && j < k) ==> !SetsConflict(rows'[k].claims, rows[j].claims))
  }

  ghost predicate NewlyHeld(rows: seq<Request>, rows': seq<Request>, k: nat) {
    k < |rows'| && Held(rows'[k].state) && (k < |rows| ==> !Held(rows[k].state))
  }

  /** What every step does to the request table. */
  ghost predicate RequestStep(rows: seq<Request>, rows': seq<Request>) {
    && |rows| <= |rows'| <= |rows| + 1
    && (forall k :: 0 <= k < |rows| ==> rows'[k].claims == rows[k].claims && (rows[k].state != Pending ==> rows'[k].state != Pending))
    && (forall k: nat :: NewlyHeld(rows, rows', k) ==> Activated(rows, rows', k))
  }

  lemma ExclusionKept(rows: seq<Request>, rows': seq<Request>)
    requires Exclusive(rows) && RequestStep(rows, rows')
    ensures Exclusive(rows')
  {
    forall j, k | 0 <= j < |rows'| && 0 <= k < |rows'| && j != k && Held(rows'[j].state) && Held(rows'[k].state)
      ensures !SetsConflict(rows'[j].claims, rows'[k].claims)
    {
      SetsConflictSymmetric(rows'[j].claims, rows'[k].claims);
      if NewlyHeld(rows, rows', k) { assert Activated(rows, rows', k); }
      if NewlyHeld(rows, rows', j) { assert Activated(rows, rows', j); }
    }
  }

  /** A call to `reserve_resource_claims` activates its own row or nothing. */
  lemma ReserveIsAStep(rows: seq<Request>, known: Option<nat>, op: Option<OpRef>, owner: Token,
                       category: string, claims: set<Claim>, policy: nat)
    requires known.Some? ==> known.value < |rows|
    ensures RequestStep(rows, ReserveClaims(rows, known, op, owner, category, claims, policy).rows)
  {
    var rows' := ReserveClaims(rows, known, op, owner, category, claims, policy).rows;
    var i := if known.Some? then known.value else |rows|;
    forall k: nat | NewlyHeld(rows, rows', k) ensures Activated(rows, rows', k) {
      var all := if known.Some? then rows else rows + [Request(op, None, owner, category, Pending, claims, policy)];
      assert k == i && rows' == all[i := all[i].(state := Active)];
      forall j | 0 <= j < |rows| && j != k
        ensures Held(rows[j].state) || (rows[j].state == Pending && j < k) ==> !SetsConflict(rows'[k].claims, rows[j].claims)
      {
        assert !Blocks(all, i, j);
      }
    }
  }

  ghost predicate Retires(row: Request, row': Request) {
    row'.claims == row.claims && (Held(row'.state) ==> Held(row.state)) && (row.state != Pending ==> row'.state != Pending)
  }

  /** Rows that move to nothing newly held. */
  lemma RetiringIsAStep(rows: seq<Request>, rows': seq<Request>)
    requires |rows'| == |rows|
    requires forall k :: 0 <= k < |rows| ==> Retires(rows[k], rows'[k])
    ensures RequestStep(rows, rows')
  {
    forall k: nat ensures !NewlyHeld(rows, rows', k) { }
  }

  /** The exact admission rule: a pending request is admitted by its next call under its own policy
      if and only if no holder and no older waiter blocks it. */
  lemma AdmittedIffUnblocked(rows: seq<Request>, k: nat)
    requires k < |rows| && rows[k].state == Pending && rows[k].claims != {}
    ensures var g := ReserveClaims(rows, Some(k), rows[k].op, rows[k].owner, rows[k].category, rows[k].claims, rows[k].policy);
            && (g.reply == Ok(Admitted) <==> forall j :: 0 <= j < |rows| ==> !Blocks(rows, k, j))
            && (g.reply == Ok(Admitted) ==> g.rows == rows[k := rows[k].(state := Active)])
            && (g.reply != Ok(Admitted) ==> g.rows == rows)
  {
  }

  /** The oldest waiter is admitted once no conflicting holder remains under its policy. */
  lemma OldestWaiterAdmitted(rows: seq<Request>, k: nat)
    requires k < |rows| && rows[k].state == Pending && rows[k].claims != {}
    requires forall j :: 0 <= j < k ==> rows[j].state != Pending
    requires forall j :: 0 <= j < |rows| && Held(rows[j].state) ==>
               !Conflicting(rows, k, j) && (rows[j].state == Active ==> rows[j].policy == rows[k].policy)
    ensures ReserveClaims(rows, Some(k), rows[k].op, rows[k].owner, rows[k].category, rows[k].claims, rows[k].policy).reply == Ok(Admitted)
  {
    forall j | 0 <= j < |rows| ensures !Blocks(rows, k, j) {
      if Held(rows[j].state) { assert !Conflicting(rows, k, j); }
    }
    AdmittedIffUnblocked(rows, k);
  }

  /** Work nested under two different holders never conflicts. */
  lemma NestedHoldersExclude(rows: seq<Request>, j: nat, k: nat, a: set<Claim>, b: set<Claim>)
    requires Exclusive(rows) && j < |rows| && k < |rows| && j != k && Held(rows[j].state) && Held(rows[k].state)
    requires CoveredBy(a, rows[j].claims) && CoveredBy(b, rows[k].claims)
    ensures !SetsConflict(a, b)
  {
    NestedExclusion(rows[j].claims, rows[k].claims, a, b);
  }

  /** No other holder conflicts with row k. */
  ghost predicate Uncontested(rows: seq<Request>, k: nat)
    requires k < |rows|
  {
    forall j :: 0 <= j < |rows| && j != k && Held(rows[j].state) ==> !SetsConflict(rows[j].claims, rows[k].claims)
  }

  /** Quarantining keeps the holders free of conflicts if and only if the row was held already or nobody contests it:
      a waiting row that is quarantined becomes a holder without having been admitted. */
  lemma QuarantineExclusiveIff(rows: seq<Request>, k: nat, owner: Token)
    requires Exclusive(rows) && QuarantineRequest(rows, k, owner).1.Ok?
    ensures Exclusive(QuarantineRequest(rows, k, owner).0) <==> Held(rows[k].state) || Uncontested(rows, k)
  {
    var rows' := QuarantineRequest(rows, k, owner).0;
    if !Held(rows[k].state) && !Uncontested(rows, k) {
      var j :| 0 <= j < |rows| && j != k && Held(rows[j].state) && SetsConflict(rows[j].claims, rows[k].claims);
      assert Held(rows'[j].state) && Held(rows'[k].state) && SetsConflict(rows'[j].claims, rows'[k].claims);
    } else {
      forall i, j | 0 <= i < |rows'| && 0 <= j < |rows'| && i != j && Held(rows'[i].state) && Held(rows'[j].state)
        ensures !SetsConflict(rows'[i].claims, rows'[j].claims)
      {
        SetsConflictSymmetric(rows[i].claims, rows[j].claims);
      }
    }
  }

  // ----- Capacity permits -----

  ghost predicate WithinLimits(permits: seq<Permit>, limit: string -> nat) {
    forall category :: HeldWeight(permits, category) <= limit(category)
  }

  ghost predicate SameColumns(p: Permit, p': Permit) { p' == p.(state := p'.state) }

  ghost predicate PermitNewlyHeld(permits: seq<Permit>, permits': seq<Permit>, k: nat) {
    k < |permits'| && Held(permits'[k].state) && (k < |permits| ==> !Held(permits[k].state))
  }

  /** Permit k became active, first in the line of its category; nothing else changed. */
  ghost predicate PermitActivated(permits: seq<Permit>, permits': seq<Permit>, k: nat) {
    && |permits| <= |permits'| && k < |permits'| && permits'[k].state == Active && (k < |permits| ==> permits[k].state == Pending)
    && (forall j :: 0 <= j < |permits| && j != k ==> permits'[j] == permits[j])
    && (forall j :: 0 <= j < k && j < |permits| ==>
          !(permits[j].category == permits'[k].category && permits[j].state == Pending))
  }

  ghost predicate PermitStep(permits: seq<Permit>, permits': seq<Permit>) {
    && |permits| <= |permits'| <= |permits| + 1
    && (forall k :: 0 <= k < |permits| ==>
          SameColumns(permits[k], permits'[k]) && (permits[k].state != Pending ==> permits'[k].state != Pending))
    && (forall k: nat :: PermitNewlyHeld(permits, permits', k) ==> PermitActivated(permits, permits', k))
  }

  lemma {:induction false} WeightShrinks(permits: seq<Permit>, permits': seq<Permit>, category: string)
    requires |permits'| == |permits|
    requires forall k :: 0 <= k < |permits| ==> SameColumns(permits[k], permits'[k]) && (Held(permits'[k].state) ==> Held(permits[k].state))
    ensures HeldWeight(permits', category) <= HeldWeight(permits, category)
  {
    if permits != [] {
      assert SameColumns(permits[|permits| - 1], permits'[|permits| - 1]);
      WeightShrinks(permits[..|permits| - 1], permits'[..|permits| - 1], category);
    }
  }

  /** What a permit adds to its category by becoming held. */
  lemma {:induction false} WeightOfHolding(permits: seq<Permit>, k: nat, state: GrantState, category: string)
    requires k < |permits| && !Held(permits[k].state) && Held(state)
    ensures HeldWeight(permits[k := permits[k].(state := state)], category)
              == HeldWeight(permits, category) + (if permits[k].category == category then permits[k].weight else 0)
  {
    var permits' := permits[k := permits[k].(state := state)];
    var n := |permits| - 1;
    if k == n {
      assert permits'[..n] == permits[..n];
    } else {
      assert permits'[..n] == permits[..n][k := permits[k].(state := state)];
      WeightOfHolding(permits[..n], k, state, category);
    }
  }

  lemma WeightOfWaiting(permits: seq<Permit>, p: Permit, category: string)
    requires p.state == Pending
    ensures HeldWeight(permits + [p], category) == HeldWeight(permits, category)
  {
    assert (permits + [p])[..|permits|] == permits;
  }

  /** A reservation changes nothing, enters a waiting row, or activates its row under the limit. */
  lemma ReservedRows(permits: seq<Permit>, known: Option<nat>, category: string, owner: Token,
                     weight: nat, limit: nat, parent: Option<nat>)
    requires known.Some? ==> known.value < |permits|
    ensures var rows := ReservePermit(permits, known, category, owner, weight, limit, parent).rows;
            var k := if known.Some? then known.value else |permits|;
            var all := if known.Some? then permits else permits + [Permit(category, owner, weight, Pending, parent)];
            || rows == permits || rows == all
            || (&& all[k].state == Pending && all[k].category == category && all[k].weight == weight
                && rows == all[k := all[k].(state := Active)] && HeldWeight(all, category) + weight <= limit
                && !OlderPending(all, k))
  {
  }

  lemma ReservePermitWeight(permits: seq<Permit>, known: Option<nat>, category: string, owner: Token,
                            weight: nat, limit: string -> nat, parent: Option<nat>)
    requires WithinLimits(permits, limit) && (known.Some? ==> known.value < |permits|)
    ensures WithinLimits(ReservePermit(permits, known, category, owner, weight, limit(category), parent).rows, limit)
  {
    var rows := ReservePermit(permits, known, category, owner, weight, limit(category), parent).rows;
    var k := if known.Some? then known.value else |permits|;
    var all := if known.Some? then permits else permits + [Permit(category, owner, weight, Pending, parent)];
    ReservedRows(permits, known, category, owner, weight, limit(category), parent);
    forall c ensures HeldWeight(rows, c) <= limit(c) {
      if known.None? { WeightOfWaiting(permits, Permit(category, owner, weight, Pending, parent), c); }
      assert HeldWeight(all, c) == HeldWeight(permits, c) <= limit(c);
      if rows != permits && rows != all { WeightOfHolding(all, k, Active, c); }
    }
  }

  /** Entering a waiting permit, and activating one that is first in line, are steps of the table. */
  lemma EnteringIsAStep(permits: seq<Permit>, p: Permit)
    requires p.state == Pending
    ensures PermitStep(permits, permits + [p])
  {
  }

  lemma ActivatingIsAStep(permits: seq<Permit>, all: seq<Permit>, k: nat)
    requires k < |all| && all[k].state == Pending && !OlderPending(all, k)
    requires all == permits || (|all| == |permits| + 1 && all[..|permits|] == permits && k == |permits|)
    ensures PermitStep(permits, all[k := all[k].(state := Active)])
  {
    var rows := all[k := all[k].(state := Active)];
    assert forall j :: 0 <= j < |permits| ==> all[j] == permits[j];
    forall i: nat | PermitNewlyHeld(permits, rows, i) ensures PermitActivated(permits, rows, i) { assert i == k; }
  }

  lemma ReservePermitIsAStep(permits: seq<Permit>, known: Option<nat>, category: string, owner: Token,
                             weight: nat, limit: nat, parent: Option<nat>)
    requires known.Some? ==> known.value < |permits|
    ensures PermitStep(permits, ReservePermit(permits, known, category, owner, weight, limit, parent).rows)
  {
    var rows := ReservePermit(permits, known, category, owner, weight, limit, parent).rows;
    var p := Permit(category, owner, weight, Pending, parent);
    var k := if known.Some? then known.value else |permits|;
    var all := if known.Some? then permits else permits + [p];
    ReservedRows(permits, known, category, owner, weight, limit, parent);
    if rows != permits {
      if rows == all { EnteringIsAStep(permits, p); } else { ActivatingIsAStep(permits, all, k); }
    }
  }

  /** A call to `reserve_capacity` keeps every category within its limit and admits in ticket order. */
  lemma ReservePermitWithinLimits(permits: seq<Permit>, known: Option<nat>, category: string, owner: Token,
                                  weight: nat, limit: string -> nat, parent: Option<nat>)
    requires WithinLimits(permits, limit) && (known.Some? ==> known.value < |permits|)
    ensures WithinLimits(ReservePermit(permits, known, category, owner, weight, limit(category), parent).rows, limit)
    ensures PermitStep(permits, ReservePermit(permits, known, category, owner, weight, limit(category), parent).rows)
  {
    ReservePermitWeight(permits, known, category, owner, weight, limit, parent);
    ReservePermitIsAStep(permits, known, category, owner, weight, limit(category), parent);
  }

  ghost predicate PermitRetires(p: Permit, p': Permit) {
    SameColumns(p, p') && (Held(p'.state) ==> Held(p.state)) && (p.state != Pending ==> p'.state != Pending)
  }

  lemma PermitRetiringIsAStep(permits: seq<Permit>, permits': seq<Permit>, limit: string -> nat)
    requires WithinLimits(permits, limit) && |permits'| == |permits|
    requires forall k :: 0 <= k < |permits| ==> PermitRetires(permits[k], permits'[k])
    ensures WithinLimits(permits', limit) && PermitStep(permits, permits')
  {
    forall c ensures HeldWeight(permits', c) <= limit(c) { WeightShrinks(permits, permits', c); }
    forall k: nat ensures !PermitNewlyHeld(permits, permits', k) { }
  }

  /** Quarantining a permit keeps the held weight within the limits if and only if it was held already or still fits. */
  lemma QuarantinePermitWeightIff(rows: seq<Request>, permits: seq<Permit>, k: nat, owner: Token, limit: string -> nat)
    requires WithinLimits(permits, limit) && QuarantinePermit(rows, permits, k, owner).2.Ok?
    ensures WithinLimits(QuarantinePermit(rows, permits, k, owner).1, limit) <==>
              Held(permits[k].state) || HeldWeight(permits, permits[k].category) + permits[k].weight <= limit(permits[k].category)
  {
    var permits' := QuarantinePermit(rows, permits, k, owner).1;
    if Held(permits[k].state) {
      forall c ensures HeldWeight(permits', c) <= limit(c) { WeightShrinks(permits, permits', c); }
    } else {
      forall c ensures HeldWeight(permits', c) == HeldWeight(permits, c) + (if permits[k].category == c then permits[k].weight else 0) {
        WeightOfHolding(permits, k, Quarantined, c);
      }
    }
  }
}
