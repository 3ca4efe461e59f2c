/** The store's own quarantine calls on rows that were never admitted. */
module AdmissionExamples {
  import opened Prelude
  import opened ResourceClaims
  import opened AdmissionTables
  import opened AdmissionProofs

  const ONE_FILE: set<Claim> := {Claim("fs", "/a", Write, Exact)}

  /** One request writes a file, another waits for it. */
  const HOLDER_AND_WAITER: seq<Request> :=
    [Request(None, None, 1, "native", Active, ONE_FILE, 0), Request(None, None, 2, "native", Pending, ONE_FILE, 0)]

  /** Quarantining the waiter makes two holders of one file. */
  lemma QuarantinedWaiterConflicts()
    ensures Exclusive(HOLDER_AND_WAITER) && QuarantineRequest(HOLDER_AND_WAITER, 1, 2).1.Ok?
    ensures !Exclusive(QuarantineRequest(HOLDER_AND_WAITER, 1, 2).0)
  {
    var c := Claim("fs", "/a", Write, Exact);
    assert c in ONE_FILE && Conflict(c, c);
    assert SetsConflict(HOLDER_AND_WAITER[0].claims, HOLDER_AND_WAITER[1].claims);
    QuarantineExclusiveIff(HOLDER_AND_WAITER, 1, 2);
  }

  /** One permit uses all the capacity, another waits for it. */
  const PERMIT_AND_WAITER: seq<Permit> := [Permit("p", 1, 1, Active, None), Permit("p", 2, 1, Pending, None)]

  function OneEach(category: string): nat { 1 }

  lemma WeightOfPair(category: string)
    ensures HeldWeight(PERMIT_AND_WAITER, category) == if category == "p" then 1 else 0
  {
    var ps := PERMIT_AND_WAITER;
    assert ps[..1] == [ps[0]] && [ps[0]][..0] == [];
    assert Weight([ps[0]], category, {Active, Quarantined}) == if category == "p" then 1 else 0;
  }

  /** Quarantining the waiting permit exceeds the limit. */
  lemma QuarantinedPermitExceeds()
    ensures WithinLimits(PERMIT_AND_WAITER, OneEach) && QuarantinePermit([], PERMIT_AND_WAITER, 1, 2).2.Ok?
    ensures !WithinLimits(QuarantinePermit([], PERMIT_AND_WAITER, 1, 2).1, OneEach)
  {
    forall category ensures HeldWeight(PERMIT_AND_WAITER, category) <= OneEach(category) { WeightOfPair(category); }
    WeightOfPair("p");
    QuarantinePermitWeightIff([], PERMIT_AND_WAITER, 1, 2, OneEach);
  }
}
