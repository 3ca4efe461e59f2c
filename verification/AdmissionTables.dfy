/** The ticketed tables of core/workflow_store.py: resource requests and runtime capacity permits.
    A table is a sequence in ticket order, so a row's position is its ticket and its identity. */
module AdmissionTables {
  import opened Prelude
  import opened ResourceClaims

  type Token = nat

  datatype OpRef = OpRef(w: nat, i: nat)

  datatype GrantState = Pending | Active | Quarantined | Released

  datatype Request = Request(
    op: Option<OpRef>, attempt: Option<Token>, owner: Token, category: string,
    state: GrantState, claims: set<Claim>, policy: nat)

  datatype Permit = Permit(
    category: string, owner: Token, weight: nat, state: GrantState, parent: Option<nat>)

  datatype Refusal =
    | PolicyIncompatible | ResourceQuarantined | ResourceConflict | OlderConflictingRequest
    | RequestTerminal | CapacityQuarantined | OlderCapacityRequest | CapacityExhausted

  datatype Verdict = Admitted | Refused(reason: Refusal)

  datatype Grant<T> = Grant(rows: seq<T>, id: nat, reply: Reply<Verdict>)

  // ----- Resource requests -----

  predicate Held(st: GrantState) { st == Active || st == Quarantined }

  /** Row j stops row k from becoming active. */
  predicate Blocks(rows: seq<Request>, k: nat, j: nat)
    requires k < |rows| && j < |rows|
  {
    && j != k && rows[j].state != Released
    && !(rows[j].state == Pending && j > k)
    && ((rows[j].state != Quarantined && rows[j].policy != rows[k].policy)
        || SetsConflict(rows[k].claims, rows[j].claims))
  }

  function WhyBlocked(rows: seq<Request>, k: nat, j: nat): Refusal
    requires k < |rows| && j < |rows|
  {
    if rows[j].state != Quarantined && rows[j].policy != rows[k].policy then PolicyIncompatible
    else match rows[j].state
      case Quarantined => ResourceQuarantined
      case Active => ResourceConflict
      case _ => OlderConflictingRequest
  }

  /** The oldest row at or after `from` that blocks k, or |rows| when there is none. */
  function FirstBlocker(rows: seq<Request>, k: nat, from: nat): (j: nat)
    requires k < |rows| && from <= |rows|
    ensures from <= j <= |rows|
    ensures j < |rows| ==> Blocks(rows, k, j)
    ensures forall m :: from <= m < j ==> !Blocks(rows, k, m)
    decreases |rows| - from
  {
    if from == |rows| || Blocks(rows, k, from) then from else FirstBlocker(rows, k, from + 1)
  }

  /** `reserve_resource_claims`: insert the request on its first call, then activate it when nothing blocks it. */
  function ReserveClaims(rows: seq<Request>, known: Option<nat>, op: Option<OpRef>, owner: Token,
                         category: string, claims: set<Claim>, policy: nat): (g: Grant<Request>)
    requires known.Some? ==> known.value < |rows|
  {
    if claims == {} then Grant(rows, 0, Raised(EmptyResourceClaims))
    else
      var k := if known.Some? then known.value else |rows|;
      var all := if known.Some? then rows
                 else rows + [Request(op, None, owner, category, Pending, claims, policy)];
      var row := all[k];
      if row.owner != owner || row.category != category || row.claims != claims then
        Grant(rows, 0, Raised(ResourceRequestConflict))
      else if row.policy != policy then Grant(all, k, Ok(Refused(PolicyIncompatible)))
      else if row.state == Active then Grant(all, k, Ok(Admitted))
      else if row.state == Quarantined then Grant(all, k, Ok(Refused(ResourceQuarantined)))
      else if row.state == Released then Grant(all, k, Ok(Refused(RequestTerminal)))
      else
        var j := FirstBlocker(all, k, 0);
        if j < |all| then Grant(all, k, Ok(Refused(WhyBlocked(all, k, j))))
        else Grant(all[k := row.(state := Active)], k, Ok(Admitted))
  }

  predicate HasLiveChild(permits: seq<Permit>, r: nat) {
    exists c :: 0 <= c < |permits| && permits[c].parent == Some(r) && permits[c].state != Released
  }

  /** `release_resource_request`: quarantines instead of releasing while a child permit is unresolved. */
  function ReleaseRequest(rows: seq<Request>, permits: seq<Permit>, k: nat, owner: Token): (r: (seq<Request>, Reply<bool>))
  {
    if k >= |rows| then (rows, Ok(false))
    else if rows[k].owner != owner then (rows, Raised(ResourceOwnerMismatch))
    else if rows[k].state != Active && rows[k].state != Pending then (rows, Ok(false))
    else if HasLiveChild(permits, k) then (rows[k := rows[k].(state := Quarantined)], Ok(false))
    else (rows[k := rows[k].(state := Released)], Ok(true))
  }

  function QuarantineRequest(rows: seq<Request>, k: nat, owner: Token): (r: (seq<Request>, Reply<()>))
  {
    if k >= |rows| then (rows, Raised(ResourceRequestNotFound))
    else if rows[k].owner != owner then (rows, Raised(ResourceOwnerMismatch))
    else if rows[k].state == Released then (rows, Raised(ResourceRequestTerminal))
    else (rows[k := rows[k].(state := Quarantined)], Ok(()))
  }

  function BindAttempt(rows: seq<Request>, k: nat, owner: Token, attempt: Token): (r: (seq<Request>, Reply<()>))
  {
    if k >= |rows| then (rows, Raised(ResourceRequestNotFound))
    else if rows[k].owner != owner then (rows, Raised(ResourceOwnerMismatch))
    else if rows[k].state != Active then (rows, Raised(ResourceRequestNotActive))
    else if rows[k].attempt.Some? && rows[k].attempt != Some(attempt) then (rows, Raised(ResourceAttemptConflict))
    else (rows[k := rows[k].(attempt := Some(attempt))], Ok(()))
  }

  // ----- Capacity permits -----

  function Weight(permits: seq<Permit>, category: string, states: set<GrantState>): nat
  {
    if permits == [] then 0
    else
      var p := permits[|permits| - 1];
      (if p.category == category && p.state in states then p.weight else 0)
        + Weight(permits[..|permits| - 1], category, states)
  }

  /** Weight charged against a category: active permits and quarantined ones. */
  function HeldWeight(permits: seq<Permit>, category: string): nat {
    Weight(permits, category, {Active, Quarantined})
  }

  predicate OlderPending(permits: seq<Permit>, k: nat)
    requires k < |permits|
  {
    exists j :: 0 <= j < k && permits[j].category == permits[k].category && permits[j].state == Pending
  }

  /** `reserve_capacity` after its parent capability has been validated. */
  function ReservePermit(permits: seq<Permit>, known: Option<nat>, category: string, owner: Token,
                         weight: nat, limit: nat, parent: Option<nat>): (g: Grant<Permit>)
    requires known.Some? ==> known.value < |permits|
  {
    if weight < 1 || limit < 1 || weight > limit then Grant(permits, 0, Raised(InvalidCapacityRequest))
    else
      var k := if known.Some? then known.value else |permits|;
      var all := if known.Some? then permits else permits + [Permit(category, owner, weight, Pending, parent)];
      var row := all[k];
      if row.owner != owner || row.category != category || row.weight != weight || row.parent != parent then
        Grant(permits, 0, Raised(CapacityRequestConflict))
      else match row.state
        case Active => Grant(all, k, Ok(Admitted))
        case Quarantined => Grant(all, k, Ok(Refused(CapacityQuarantined)))
        case Released => Grant(all, k, Ok(Refused(RequestTerminal)))
        case Pending =>
          if OlderPending(all, k) then Grant(all, k, Ok(Refused(OlderCapacityRequest)))
          else if HeldWeight(all, category) + weight > limit then Grant(all, k, Ok(Refused(CapacityExhausted)))
          else Grant(all[k := row.(state := Active)], k, Ok(Admitted))
  }

  function ReleasePermit(permits: seq<Permit>, k: nat, owner: Token): (r: (seq<Permit>, Reply<bool>))
  {
    if k >= |permits| then (permits, Ok(false))
    else if permits[k].owner != owner then (permits, Raised(CapacityOwnerMismatch))
    else if permits[k].state != Active && permits[k].state != Pending then (permits, Ok(false))
    else (permits[k := permits[k].(state := Released)], Ok(true))
  }

  /** `quarantine_capacity`: the permit and, with it, its active parent request. */
  function QuarantinePermit(rows: seq<Request>, permits: seq<Permit>, k: nat, owner: Token)
    : (r: (seq<Request>, seq<Permit>, Reply<()>))
  {
    if k >= |permits| || permits[k].owner != owner || permits[k].state == Released then
      (rows, permits, Raised(CapacityOwnerMismatch))
    else
      var p := permits[k].parent;
      var rows' := if p.Some? && p.value < |rows| && rows[p.value].state == Active
                   then rows[p.value := rows[p.value].(state := Quarantined)] else rows;
      (rows', permits[k := permits[k].(state := Quarantined)], Ok(()))
  }
}
