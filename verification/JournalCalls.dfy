/** The calls of `OperationRecoveryJournal` (core/recovery.py): what each appends, from what it reads under the journal lock. */
module JournalCalls {
  import opened Prelude
  import opened JournalRecords
  import opened JournalCompaction

  datatype JournalError =
    | NoSuchOperation | OperationLimit | WorkspaceEditLimit | AlreadyCompleted | AlreadyReconciled | AlreadyAcknowledged
    | AlreadyUncertain | AlreadyDispatched | CheckpointConflict | InvalidHandle | InvalidMetadata | InvalidVerdict
    | EvidenceRequired | ConclusiveEvidenceRequired

  /** A call appends one record, returns without writing, or raises. */
  datatype Effect = Append(record: Record) | Nothing | Raise(error: JournalError)

  datatype Handle = Handle(id: OpId, runtime: RuntimeId, opType: OpType)

  datatype Config = Config(externalQuota: nat, workspaceQuota: nat, retention: Retention)

  // ----- Merged external metadata -----

  function Overlay(e: External, x: Option<External>): External {
    if x.None? then e
    else External(x.value.identity, x.value.stage, if x.value.outcome.Some? then x.value.outcome else e.outcome,
                  if x.value.reason.Some? then x.value.reason else e.reason,
                  if x.value.receipt.Some? then x.value.receipt else e.receipt)
  }

  function ExternalOf(slot: Option<Record>): Option<External> {
    if slot.Some? && !slot.value.Unknown? then slot.value.external else None
  }

  function Decided(e: External, slot: Option<Record>): External {
    if slot.None? then e
    else match slot.value
      case Result(_, _, _, outcome, _, _) => if outcome.Some? then e.(outcome := outcome) else e
      case Uncertain(_, _, _, _) => if e.outcome.None? then e.(outcome := Some(UncertainOutcome)) else e
      case Reconciliation(_, _, _, verdict, _, _, _) => e.(outcome := Some(verdict))
      case Acknowledged(_, _, _, verdict, _, _, _) => e.(outcome := Some(verdict))
      case _ => e
  }

  function Overlaid(e: External, slot: Option<Record>): External { Decided(Overlay(e, ExternalOf(slot)), slot) }

  /** `_merged_external_metadata`: the begin metadata, overridden by the later records in a fixed order. */
  function Merged(item: Item): Option<External> {
    if !IsExternal(item) then None
    else Some(Overlaid(Overlaid(Overlaid(Overlaid(Overlaid(item.begin.external.value,
           item.checkpoint), item.result), item.uncertain), item.reconciliation), item.acknowledged))
  }

  function MergedAs(item: Item, outcome: Verdict): Option<External> {
    if Merged(item).Some? then Some(Merged(item).value.(outcome := Some(outcome))) else None
  }

  // ----- begin -----

  function UnresolvedIn(items: map<OpId, Item>): set<OpId> { set id | id in items && UnresolvedExternal(items[id]) }

  function BeginCall(records: seq<Record>, cfg: Config, id: OpId, runtime: RuntimeId, opType: OpType, uia: bool,
                     external: Option<External>, started: Stamp): Effect
  {
    var record := Begin(id, runtime, opType, uia, external, started);
    if uia && !opType.NativeUia? then Raise(InvalidMetadata)
    else if external.None? then Append(record)
    else
      var pass := ExternalPass(records, cfg.externalQuota);
      if pass.None? || |UnresolvedIn(pass.value)| >= cfg.externalQuota then Raise(OperationLimit) else Append(record)
  }

  // ----- Checkpoints -----

  predicate Settled(item: Item) { Resolved(item) || item.uncertain.Some? }

  /** The latest checkpoint, whose fields the next one carries on. */
  function Last(item: Item): (r: Record)
    requires item.begin.Begin?
    ensures r.Checkpoint?
  {
    if item.checkpoint.Some? && item.checkpoint.value.Checkpoint? then item.checkpoint.value
    else Checkpoint(item.begin.id, item.begin.runtime, None, Absent, Absent, None)
  }

  function ExternalDispatchCall(records: seq<Record>, h: Handle): Effect {
    var item := ItemOf(records, h.id);
    if item.None? then Raise(NoSuchOperation)
    else if Settled(item.value) then Raise(AlreadyCompleted)
    else if Merged(item.value).None? then Raise(InvalidMetadata)
    else if item.value.checkpoint.Some? then
      var ext := ExternalOf(item.value.checkpoint);
      if ext.Some? && ext.value.stage == MayDispatch then Nothing else Raise(CheckpointConflict)
    else Append(Checkpoint(h.id, h.runtime, Some(Merged(item.value).value.(stage := MayDispatch)), Absent, Absent, None))
  }

  function NativeCheckpointCall(records: seq<Record>, runtime: RuntimeId, h: Handle, target: nat, stage: Stage): Effect {
    var item := ItemOf(records, h.id);
    if item.None? || !item.value.begin.Begin? || h.runtime != runtime || item.value.begin.runtime != h.runtime
       || item.value.begin.opType != h.opType || !h.opType.NativeUia? || item.value.begin.external.Some?
    then Raise(InvalidHandle)
    else if Settled(item.value) then Raise(AlreadyCompleted)
    else
      var prior := Native(item.value);
      if prior == Malformed || (prior.Held? && (prior.identity != target || (prior.stage == MayDispatch && stage == Prepared)))
      then Raise(CheckpointConflict)
      else if prior == Held(stage, target) then Nothing
      else if prior == Absent && stage != Prepared then Raise(CheckpointConflict)
      else Append(Last(item.value).(id := h.id, runtime := h.runtime, native := Held(stage, target)))
  }

  function PostconditionCall(records: seq<Record>, h: Handle, postcondition: nat): Effect {
    var item := ItemOf(records, h.id);
    if item.None? || !item.value.begin.Begin? then Raise(NoSuchOperation)
    else if item.value.result.Some? then Raise(AlreadyCompleted)
    else
      var last := Last(item.value);
      if last.postcondition == Some(postcondition) then Nothing
      else if last.postcondition.Some? then Raise(CheckpointConflict)
      else Append(last.(id := h.id, runtime := h.runtime, postcondition := Some(postcondition)))
  }

  function OtherUnresolvedWorkspaces(records: seq<Record>, id: OpId): set<OpId> {
    set k | k in Fold(records).items && k != id && UnresolvedWorkspace(Fold(records).items[k])
  }

  function WorkspaceCheckpointCall(records: seq<Record>, cfg: Config, runtime: RuntimeId, h: Handle, files: nat, stage: Stage): Effect {
    var item := ItemOf(records, h.id);
    if item.None? || !item.value.begin.Begin? || h.runtime != runtime || item.value.begin.runtime != h.runtime
    then Raise(InvalidHandle)
    else if Settled(item.value) then Raise(AlreadyCompleted)
    else
      var prior := Workspace(item.value);
      if prior == Malformed || (prior.Held? && prior.identity != files) then Raise(CheckpointConflict)
      else if prior.Held? && prior.stage == stage then Nothing
      else if prior.Held? && (prior.stage == MayDispatch || stage == Prepared) then Raise(CheckpointConflict)
      else if prior == Absent && stage != Prepared then Raise(CheckpointConflict)
      else if prior == Absent && |OtherUnresolvedWorkspaces(records, h.id)| >= cfg.workspaceQuota then Raise(WorkspaceEditLimit)
      else Append(Last(item.value).(id := h.id, runtime := h.runtime, workspace := Held(stage, files)))
  }

  // ----- Outcomes -----

  function NotDispatchedCall(records: seq<Record>, h: Handle, reason: nat): Effect {
    var item := ItemOf(records, h.id);
    if item.None? then Raise(NoSuchOperation)
    else if item.value.result.Some? then Raise(AlreadyCompleted)
    else if item.value.uncertain.Some? then Raise(AlreadyUncertain)
    else if Merged(item.value).None? then Raise(InvalidMetadata)
    else if Merged(item.value).value.stage == MayDispatch then Raise(AlreadyDispatched)
    else
      var ext := Merged(item.value).value.(stage := Prepared, outcome := Some(NotDispatched), reason := Some(reason));
      Append(Result(h.id, h.runtime, ReturnedError, Some(NotDispatched), Some(ext), true))
  }

  function MarkUncertainCall(records: seq<Record>, h: Handle, reason: nat, receipt: Option<nat>): Effect {
    var item := ItemOf(records, h.id);
    if item.None? then Raise(NoSuchOperation)
    else if item.value.result.Some? then Raise(AlreadyCompleted)
    else if item.value.uncertain.Some? then Nothing
    else
      var ext := MergedAs(item.value, UncertainOutcome);
      var ext' := if ext.None? then None
                  else Some(ext.value.(reason := Some(reason), receipt := if receipt.Some? then receipt else ext.value.receipt));
      Append(Uncertain(h.id, h.runtime, reason, ext'))
  }

  /** Results after a durable dispatch checkpoint that say nothing about the effect. */
  predicate Diverted(item: Item, known: Known) {
    || (Workspace(item).Held? && Workspace(item).stage == MayDispatch && known == RaisedResult)
    || (Native(item).Held? && Native(item).stage == MayDispatch && known in {RaisedResult, ReturnedError})
  }

  /** Reason codes that the journal itself writes. */
  const DISPATCHED_WITHOUT_RESULT: nat := 1
  const RUNTIME_ENDED: nat := 2

  function FinishCall(records: seq<Record>, h: Handle, known: Known, outcome: Option<Verdict>, receipt: Option<nat>): Effect {
    var item := ItemOf(records, h.id);
    if item.None? then Append(Result(h.id, h.runtime, known, outcome, None, known != EmptyResult))
    else if item.value.uncertain.Some? then Raise(AlreadyUncertain)
    else if Diverted(item.value, known) then Append(Uncertain(h.id, h.runtime, DISPATCHED_WITHOUT_RESULT, None))
    else if Merged(item.value).None? then Append(Result(h.id, h.runtime, known, outcome, None, known != EmptyResult))
    else
      var resolved := if outcome.Some? then outcome.value else if known in {RaisedResult, ReturnedError} then Failed else Succeeded;
      var ext := Merged(item.value).value.(outcome := Some(resolved));
      Append(Result(h.id, h.runtime, known, Some(resolved),
                    Some(ext.(receipt := if receipt.Some? then receipt else ext.receipt)), known != EmptyResult))
  }

  function AcknowledgeCall(records: seq<Record>, runtime: RuntimeId, id: OpId, verdict: Verdict, evidence: Option<nat>, at: Stamp): Effect {
    var item := ItemOf(records, id);
    if verdict !in {AcknowledgedAs, Unresolvable} then Raise(InvalidVerdict)
    else if evidence.None? then Raise(EvidenceRequired)
    else if item.None? then Raise(NoSuchOperation)
    else if item.value.result.Some? then Raise(AlreadyCompleted)
    else if item.value.reconciliation.Some? then Raise(AlreadyReconciled)
    else if item.value.acknowledged.Some? then
      var prior := item.value.acknowledged.value;
      if prior.Acknowledged? && prior.verdict == verdict && prior.evidence == evidence.value then Nothing else Raise(AlreadyAcknowledged)
    else Append(Acknowledged(id, runtime, at, verdict, evidence.value, MergedAs(item.value, verdict), true))
  }

  /** `sound` says that the evidence names a source and carries data; `evidence` stands for postcondition and evidence. */
  function ReconcileCall(records: seq<Record>, runtime: RuntimeId, id: OpId, verdict: Verdict, evidence: nat,
                         conclusive: bool, sound: bool, at: Stamp): Effect
  {
    var item := ItemOf(records, id);
    if verdict !in {Succeeded, Failed, Unresolvable} then Raise(InvalidVerdict)
    else if verdict in {Succeeded, Failed} && !conclusive then Raise(ConclusiveEvidenceRequired)
    else if item.None? then Raise(NoSuchOperation)
    else if item.value.result.Some? then Raise(AlreadyCompleted)
    else if item.value.acknowledged.Some? then Raise(AlreadyAcknowledged)
    else if item.value.reconciliation.Some? then
      var prior := item.value.reconciliation.value;
      if prior.Reconciliation? && prior.verdict == verdict && prior.evidence == evidence then Nothing else Raise(AlreadyReconciled)
    else Append(Reconciliation(id, runtime, at, verdict, evidence, MergedAs(item.value, verdict), sound))
  }

  // ----- Restart recovery (`_recover_previous_unlocked`) -----

  predicate WorkspaceUndispatched(item: Item) {
    || (item.begin.Begin? && item.begin.opType == WorkspaceEdit && Workspace(item) == Absent)
    || (Workspace(item).Held? && Workspace(item).stage == Prepared)
  }

  predicate UnderUiaProtocol(item: Item) { item.begin.Begin? && item.begin.opType.NativeUia? && item.begin.uiaProtocol }

  predicate UiaUndispatched(item: Item) {
    UnderUiaProtocol(item) && (Native(item) == Absent || (Native(item).Held? && Native(item).stage == Prepared))
  }

  /** The record that recovery appends for an operation of an earlier runtime, if any. */
  function Recovery(item: Item, runtime: RuntimeId): Option<Record> {
    if Settled(item) || !item.begin.Begin? || item.begin.runtime == runtime then None
    else if WorkspaceUndispatched(item) || UiaUndispatched(item) then
      Some(Result(item.begin.id, item.begin.runtime, ReturnedError, None, None, true))
    else
      var ext := MergedAs(item, UncertainOutcome);
      var ext' := if ext.None? then None
                  else Some(ext.value.(reason := if ext.value.reason.Some? then ext.value.reason else Some(RUNTIME_ENDED)));
      Some(Uncertain(item.begin.id, item.begin.runtime, RUNTIME_ENDED, ext'))
  }

  function RecoveryRecords(l: Ledger, runtime: RuntimeId, n: nat): seq<Record>
    requires n <= |l.order|
  {
    if n == 0 then []
    else RecoveryRecords(l, runtime, n - 1)
         + (if l.order[n - 1] in l.items then Only(Recovery(l.items[l.order[n - 1]], runtime)) else [])
  }

  function RecoverPrevious(records: seq<Record>, runtime: RuntimeId): seq<Record> {
    records + RecoveryRecords(Fold(records), runtime, |Fold(records).order|)
  }

  // ----- Runs -----

  /** The journal file and the next unused operation id. Any number of runtimes share the file. */
  datatype Journal = Journal(records: seq<Record>, nextId: OpId)

  datatype Call =
    | BeginOp(runtime: RuntimeId, opType: OpType, uia: bool, external: Option<External>, started: Stamp)
    | DispatchExternal(h: Handle)
    | CheckpointNative(runtime: RuntimeId, h: Handle, target: nat, stage: Stage)
    | CheckpointPostcondition(h: Handle, postcondition: nat)
    | CheckpointWorkspace(runtime: RuntimeId, h: Handle, files: nat, stage: Stage)
    | FinishNotDispatched(h: Handle, reason: nat)
    | MarkUncertain(h: Handle, reason: nat, receipt: Option<nat>)
    | Finish(h: Handle, known: Known, outcome: Option<Verdict>, receipt: Option<nat>)
    | Acknowledge(runtime: RuntimeId, id: OpId, verdict: Verdict, given: Option<nat>, at: Stamp)
    | Reconcile(runtime: RuntimeId, id: OpId, verdict: Verdict, evidence: nat, conclusive: bool, sound: bool, at: Stamp)
    | Restart(runtime: RuntimeId)
    | CompactJournal(now: int)

  function EffectOf(cfg: Config, j: Journal, call: Call): Effect
    requires !call.Restart? && !call.CompactJournal?
  {
    match call
    case BeginOp(runtime, opType, uia, external, started) =>
      BeginCall(j.records, cfg, j.nextId, runtime, opType, uia, external, started)
    case DispatchExternal(h) => ExternalDispatchCall(j.records, h)
    case CheckpointNative(runtime, h, target, stage) => NativeCheckpointCall(j.records, runtime, h, target, stage)
    case CheckpointPostcondition(h, p) => PostconditionCall(j.records, h, p)
    case CheckpointWorkspace(runtime, h, files, stage) => WorkspaceCheckpointCall(j.records, cfg, runtime, h, files, stage)
    case FinishNotDispatched(h, reason) => NotDispatchedCall(j.records, h, reason)
    case MarkUncertain(h, reason, receipt) => MarkUncertainCall(j.records, h, reason, receipt)
    case Finish(h, known, outcome, receipt) => FinishCall(j.records, h, known, outcome, receipt)
    case Acknowledge(runtime, id, verdict, evidence, at) => AcknowledgeCall(j.records, runtime, id, verdict, evidence, at)
    case Reconcile(runtime, id, verdict, evidence, conclusive, sound, at) =>
      ReconcileCall(j.records, runtime, id, verdict, evidence, conclusive, sound, at)
  }

  function Next(cfg: Config, j: Journal, call: Call): Journal {
    if call.Restart? then
      (if Valid(j.records) then j.(records := RecoverPrevious(j.records, call.runtime)) else j)
    else if call.CompactJournal? then j.(records := Compact(j.records, call.now, cfg.retention))
    else
      var effect := EffectOf(cfg, j, call);
      Journal(if effect.Append? then j.records + [effect.record] else j.records,
              if call.BeginOp? then j.nextId + 1 else j.nextId)
  }

  function RunJournal(cfg: Config, calls: seq<Call>): Journal {
    if calls == [] then Journal([], 0)
    else Next(cfg, RunJournal(cfg, calls[..|calls| - 1]), calls[|calls| - 1])
  }
}
