/** `SingleFlight.run` (core/singleflight.py) as the interleaving of its calls: one step is one locked section, or the
    start or the end of an operation. */
module SingleFlight {
  import opened Prelude

  type Key = string
  type CallId = nat

  /** The operation that call `op` supplied, begun at time `since`: it returned or raised. */
  datatype Outcome = Outcome(op: CallId, since: nat, ok: bool)

  datatype Stage =
    | Waiting
    | Starting(op: CallId)
    | Running(op: CallId, since: nat)
    | Finished(outcome: Outcome)
    | Ended(outcome: Outcome)
    | Rejected

  datatype Call = Call(thread: nat, key: Key, dirty: bool, at: nat, flight: nat, stage: Stage)

  /** `result` is the future of the flight, `settledAt` the time at which it was set. */
  datatype Flight = Flight(key: Key, owner: CallId, followUp: Option<CallId>, result: Option<Outcome>, settledAt: nat)

  datatype System = System(clock: nat, open: map<Key, nat>, flights: seq<Flight>, calls: seq<Call>)

  datatype Step =
    | Enter(thread: nat, key: Key, dirty: bool)
    | Begin(c: CallId)
    | End(c: CallId, ok: bool)
    | Settle(c: CallId)
    | Wake(c: CallId)

  /** The calls that hold a flight and have not finished with it. */
  predicate Owning(c: Call) { c.stage.Starting? || c.stage.Running? || c.stage.Finished? }

  function PutStage(s: System, c: CallId, stage: Stage): System
    requires c < |s.calls|
  {
    s.(calls := s.calls[c := s.calls[c].(stage := stage)])
  }

  function EnterStep(s: System, thread: nat, key: Key, dirty: bool): System {
    var me := |s.calls|;
    if key in s.open && s.open[key] < |s.flights| then
      var f := s.open[key];
      var owner := s.flights[f].owner;
      if owner < |s.calls| && s.calls[owner].thread == thread then
        s.(calls := s.calls + [Call(thread, key, dirty, s.clock, f, Rejected)])
      else
        s.(calls := s.calls + [Call(thread, key, dirty, s.clock, f, Waiting)],
           flights := if dirty then s.flights[f := s.flights[f].(followUp := Some(me))] else s.flights)
    else
      s.(open := s.open[key := |s.flights|], flights := s.flights + [Flight(key, me, None, None, 0)],
         calls := s.calls + [Call(thread, key, dirty, s.clock, |s.flights|, Starting(me))])
  }

  /** The owner's locked section after an operation: run the follow-up, or close the flight and set its result. */
  function SettleStep(s: System, c: CallId): System
    requires c < |s.calls| && s.calls[c].stage.Finished?
  {
    var f := s.calls[c].flight;
    var outcome := s.calls[c].stage.outcome;
    if f >= |s.flights| then s
    else if outcome.ok && s.flights[f].followUp.Some? then
      PutStage(s.(flights := s.flights[f := s.flights[f].(followUp := None)]), c, Starting(s.flights[f].followUp.value))
    else
      PutStage(s.(open := s.open - {s.calls[c].key},
                  flights := s.flights[f := s.flights[f].(result := Some(outcome), settledAt := s.clock)]), c, Ended(outcome))
  }

  function Move(s: System, step: Step): System {
    match step
    case Enter(thread, key, dirty) => EnterStep(s, thread, key, dirty)
    case Begin(c) => if c < |s.calls| && s.calls[c].stage.Starting? then PutStage(s, c, Running(s.calls[c].stage.op, s.clock)) else s
    case End(c, ok) =>
      if c < |s.calls| && s.calls[c].stage.Running?
      then PutStage(s, c, Finished(Outcome(s.calls[c].stage.op, s.calls[c].stage.since, ok))) else s
    case Settle(c) => if c < |s.calls| && s.calls[c].stage.Finished? then SettleStep(s, c) else s
    case Wake(c) =>
      if c < |s.calls| && s.calls[c].stage.Waiting? && s.calls[c].flight < |s.flights| && s.flights[s.calls[c].flight].result.Some?
      then PutStage(s, c, Ended(s.flights[s.calls[c].flight].result.value)) else s
  }

  function Apply(s: System, step: Step): System { Move(s, step).(clock := s.clock + 1) }

  function Run(steps: seq<Step>): System {
    if steps == [] then System(0, map[], [], []) else Apply(Run(steps[..|steps| - 1]), steps[|steps| - 1])
  }

  // ----- The invariant -----

  /** A flight is open exactly until its result is set, and its owner is at work exactly that long. */
  ghost predicate FlightOk(s: System, f: nat)
    requires f < |s.flights|
  {
    var row := s.flights[f];
    && row.owner < |s.calls| && s.calls[row.owner].flight == f && s.calls[row.owner].key == row.key
    && (row.result.None? <==> row.key in s.open && s.open[row.key] == f)
    && (row.result.None? <==> Owning(s.calls[row.owner]))
    && (row.result.Some? && row.result.value.ok ==> row.followUp.None?)
    && (row.result.Some? ==> row.settledAt < s.clock && s.calls[row.owner].stage == Ended(row.result.value))
  }

  /** The operation now in flight, or the one to come, begins after `at`. */
  ghost predicate Refreshes(row: Flight, owner: Stage, at: nat) {
    || row.followUp.Some?
    || owner.Starting?
    || (owner.Running? && owner.since > at)
    || (owner.Finished? && owner.outcome.since > at)
    || (row.result.Some? && row.result.value.since > at)
  }

  ghost predicate Answered(row: Flight, c: Call, outcome: Outcome) {
    row.result == Some(outcome) && row.settledAt > c.at && (c.dirty && outcome.ok ==> outcome.since > c.at)
  }

  ghost predicate CallOk(s: System, c: CallId)
    requires c < |s.calls|
  {
    var call := s.calls[c];
    && call.at < s.clock && call.flight < |s.flights| && s.flights[call.flight].key == call.key
    && (Owning(call) ==> s.flights[call.flight].owner == c)
    && (call.stage.Running? ==> call.at < call.stage.since < s.clock)
    && (call.stage.Finished? ==> call.at < call.stage.outcome.since < s.clock)
    && (call.stage.Ended? ==> Answered(s.flights[call.flight], call, call.stage.outcome))
    && (call.stage.Waiting? ==> WaitOk(s, call))
  }

  ghost predicate WaitOk(s: System, call: Call)
    requires call.flight < |s.flights|
  {
    var row := s.flights[call.flight];
    && row.owner < |s.calls|
    && (row.result.Some? ==> row.settledAt > call.at)
    && (call.dirty ==> Refreshes(row, s.calls[row.owner].stage, call.at) || (row.result.Some? && !row.result.value.ok))
  }

  ghost predicate SystemOk(s: System) {
    && (forall f :: 0 <= f < |s.flights| ==> FlightOk(s, f))
    && (forall c :: 0 <= c < |s.calls| ==> CallOk(s, c))
    && (forall k :: k in s.open ==> s.open[k] < |s.flights| && s.flights[s.open[k]].key == k && s.flights[s.open[k]].result.None?)
  }

  lemma EnterFlights(s: System, thread: nat, key: Key, dirty: bool, f: nat)
    requires SystemOk(s) && f < |Apply(s, Enter(thread, key, dirty)).flights|
    ensures FlightOk(Apply(s, Enter(thread, key, dirty)), f)
  {
    if f < |s.flights| { assert FlightOk(s, f); }
  }

  lemma EnteringCall(s: System, thread: nat, key: Key, dirty: bool)
    requires SystemOk(s) && |Apply(s, Enter(thread, key, dirty)).calls| > |s.calls|
    ensures CallOk(Apply(s, Enter(thread, key, dirty)), |s.calls|)
  {
    if key in s.open { assert FlightOk(s, s.open[key]); }
  }

  lemma EnterCalls(s: System, thread: nat, key: Key, dirty: bool, c: CallId)
    requires SystemOk(s) && c < |Apply(s, Enter(thread, key, dirty)).calls|
    ensures CallOk(Apply(s, Enter(thread, key, dirty)), c)
  {
    if c < |s.calls| {
      assert CallOk(s, c);
      assert FlightOk(s, s.calls[c].flight);
    } else {
      EnteringCall(s, thread, key, dirty);
    }
  }

  lemma EnterKeeps(s: System, thread: nat, key: Key, dirty: bool)
    requires SystemOk(s)
    ensures SystemOk(Apply(s, Enter(thread, key, dirty)))
  {
    var s' := Apply(s, Enter(thread, key, dirty));
    forall f | 0 <= f < |s'.flights| ensures FlightOk(s', f) { EnterFlights(s, thread, key, dirty, f); }
    forall c | 0 <= c < |s'.calls| ensures CallOk(s', c) { EnterCalls(s, thread, key, dirty, c); }
  }

  lemma BeginKeeps(s: System, c: CallId)
    requires SystemOk(s)
    ensures SystemOk(Apply(s, Begin(c)))
  {
    var s' := Apply(s, Begin(c));
    forall f | 0 <= f < |s'.flights| ensures FlightOk(s', f) { assert FlightOk(s, f); }
    forall i | 0 <= i < |s'.calls| ensures CallOk(s', i) { assert CallOk(s, i); }
  }

  lemma EndKeeps(s: System, c: CallId, ok: bool)
    requires SystemOk(s)
    ensures SystemOk(Apply(s, End(c, ok)))
  {
    var s' := Apply(s, End(c, ok));
    forall f | 0 <= f < |s'.flights| ensures FlightOk(s', f) { assert FlightOk(s, f); }
    forall i | 0 <= i < |s'.calls| ensures CallOk(s', i) { assert CallOk(s, i); }
  }

  lemma WakeKeeps(s: System, c: CallId)
    requires SystemOk(s)
    ensures SystemOk(Apply(s, Wake(c)))
  {
    var s' := Apply(s, Wake(c));
    forall f | 0 <= f < |s'.flights| ensures FlightOk(s', f) { assert FlightOk(s, f); }
    forall i | 0 <= i < |s'.calls| ensures CallOk(s', i) {
      assert CallOk(s, i);
      assert FlightOk(s, s.calls[i].flight);
    }
  }

  lemma SettleFlights(s: System, c: CallId, f: nat)
    requires SystemOk(s) && c < |s.calls| && s.calls[c].stage.Finished? && f < |s.flights|
    ensures FlightOk(Apply(s, Settle(c)), f)
  {
    assert CallOk(s, c) && FlightOk(s, s.calls[c].flight) && FlightOk(s, f);
  }

  lemma SettleOwner(s: System, c: CallId)
    requires SystemOk(s) && c < |s.calls| && s.calls[c].stage.Finished?
    ensures CallOk(Apply(s, Settle(c)), c)
  {
    assert CallOk(s, c) && FlightOk(s, s.calls[c].flight);
  }

  lemma SettleSharer(s: System, c: CallId, i: CallId)
    requires SystemOk(s) && c < |s.calls| && s.calls[c].stage.Finished? && i < |s.calls| && i != c
    requires s.calls[i].flight == s.calls[c].flight
    ensures CallOk(Apply(s, Settle(c)), i)
  {
    assert CallOk(s, c) && CallOk(s, i) && FlightOk(s, s.calls[c].flight);
  }

  lemma SettleStranger(s: System, c: CallId, i: CallId)
    requires SystemOk(s) && c < |s.calls| && s.calls[c].stage.Finished? && i < |s.calls|
    requires s.calls[i].flight != s.calls[c].flight
    ensures CallOk(Apply(s, Settle(c)), i)
  {
    assert CallOk(s, c) && CallOk(s, i) && FlightOk(s, s.calls[i].flight);
  }

  lemma SettleCalls(s: System, c: CallId, i: CallId)
    requires SystemOk(s) && c < |s.calls| && s.calls[c].stage.Finished? && i < |s.calls|
    ensures CallOk(Apply(s, Settle(c)), i)
  {
    if i == c { SettleOwner(s, c); }
    else if s.calls[i].flight == s.calls[c].flight { SettleSharer(s, c, i); }
    else { SettleStranger(s, c, i); }
  }

  lemma SettleKeeps(s: System, c: CallId)
    requires SystemOk(s)
    ensures SystemOk(Apply(s, Settle(c)))
  {
    var s' := Apply(s, Settle(c));
    if c < |s.calls| && s.calls[c].stage.Finished? {
      assert CallOk(s, c) && FlightOk(s, s.calls[c].flight);
      forall f | 0 <= f < |s'.flights| ensures FlightOk(s', f) { SettleFlights(s, c, f); }
      forall i | 0 <= i < |s'.calls| ensures CallOk(s', i) { SettleCalls(s, c, i); }
    } else {
      forall f | 0 <= f < |s'.flights| ensures FlightOk(s', f) { assert FlightOk(s, f); }
      forall i | 0 <= i < |s'.calls| ensures CallOk(s', i) { assert CallOk(s, i); }
    }
  }

  lemma {:induction false} RunOk(steps: seq<Step>)
    ensures SystemOk(Run(steps))
  {
    if steps != [] {
      var s := Run(steps[..|steps| - 1]);
      RunOk(steps[..|steps| - 1]);
      match steps[|steps| - 1]
      case Enter(thread, key, dirty) => EnterKeeps(s, thread, key, dirty);
      case Begin(c) => BeginKeeps(s, c);
      case End(c, ok) => EndKeeps(s, c, ok);
      case Settle(c) => SettleKeeps(s, c);
      case Wake(c) => WakeKeeps(s, c);
    }
  }

  // ----- The promises -----

  /** At most one operation runs for a key at any time. */
  lemma OneOperationPerKey(steps: seq<Step>, a: CallId, b: CallId)
    requires a < |Run(steps).calls| && b < |Run(steps).calls| && Run(steps).calls[a].key == Run(steps).calls[b].key
    requires Owning(Run(steps).calls[a]) && Owning(Run(steps).calls[b])
    ensures a == b
  {
    var s := Run(steps);
    RunOk(steps);
    assert CallOk(s, a) && CallOk(s, b);
    assert FlightOk(s, s.calls[a].flight) && FlightOk(s, s.calls[b].flight);
  }

  /** A dirty caller that gets a value gets one computed by an operation that began after its call. */
  lemma DirtyCallersGetFreshValues(steps: seq<Step>, c: CallId)
    requires c < |Run(steps).calls| && Run(steps).calls[c].stage.Ended?
    ensures var call := Run(steps).calls[c]; call.dirty && call.stage.outcome.ok ==> call.stage.outcome.since > call.at
  {
    RunOk(steps);
    assert CallOk(Run(steps), c);
  }

  /** All calls that shared a flight end with the same outcome, and it was settled after each of them called. */
  lemma WaitersShareOneOutcome(steps: seq<Step>, a: CallId, b: CallId)
    requires a < |Run(steps).calls| && b < |Run(steps).calls| && Run(steps).calls[a].flight == Run(steps).calls[b].flight
    requires Run(steps).calls[a].stage.Ended? && Run(steps).calls[b].stage.Ended?
    ensures Run(steps).calls[a].stage.outcome == Run(steps).calls[b].stage.outcome
    ensures var s := Run(steps); s.calls[a].flight < |s.flights| && s.flights[s.calls[a].flight].settledAt > s.calls[a].at
  {
    RunOk(steps);
    assert CallOk(Run(steps), a) && CallOk(Run(steps), b);
  }

  /** Nothing survives completion: a flight is found under its key exactly while some call still works for it. */
  lemma NothingSurvives(steps: seq<Step>, key: Key)
    ensures key in Run(steps).open <==>
              exists c :: 0 <= c < |Run(steps).calls| && Run(steps).calls[c].key == key && Owning(Run(steps).calls[c])
  {
    var s := Run(steps);
    RunOk(steps);
    if key in s.open {
      assert FlightOk(s, s.open[key]);
      assert Owning(s.calls[s.flights[s.open[key]].owner]);
    }
    forall c | 0 <= c < |s.calls| && s.calls[c].key == key && Owning(s.calls[c]) ensures key in s.open {
      assert CallOk(s, c) && FlightOk(s, s.calls[c].flight);
    }
  }
}
