/** `OperationRecoveryJournal` of core/recovery.py as an object: it streams its file through dictionaries, appends and
    rewrites. Each method is proved to do what the run theorems reason about. */
module RecoveryJournal {
  import opened Prelude
  import opened JournalRecords
  import opened JournalFolds
  import opened JournalCompaction
  import opened JournalCalls
  import opened JournalTheorems
  import opened JournalContracts

  class OperationRecoveryJournal {
    const cfg: Config
    const runtime: RuntimeId
    var records: seq<Record>
    var nextId: OpId

    function View(): Journal
      reads this
    {
      Journal(records, nextId)
    }

    /** Distinct operations, never two resolutions of one, and the external quota kept. */
    ghost predicate Valid()
      reads this
    {
      JournalOk(cfg, View())
    }

    constructor (cfg: Config, runtime: RuntimeId, file: seq<Record>, nextId: OpId)
      ensures View() == Journal(file, nextId) && this.cfg == cfg && this.runtime == runtime
    {
      this.cfg, this.runtime, this.records, this.nextId := cfg, runtime, file, nextId;
    }

    method AppendRecord(r: Record)
      modifies this`records
      ensures records == old(records) + [r]
    {
      records := records + [r];
    }

    /** `configure` on an existing file: validate strictly, then recover what earlier runtimes left. */
    method Configure() returns (ok: bool)
      modifies this`records
      ensures old(Valid()) ==> Valid()
      ensures ok == JournalCompaction.Valid(old(records)) && View() == Next(cfg, old(View()), Restart(runtime))
    {
      if Valid() { StepKeeps(cfg, View(), Restart(runtime)); }
      ok := ValidateRecords(records);
      if ok { RecoverPreviousRuntimes(); }
    }

    /** `_recover_previous_unlocked`: one record for each operation that an earlier runtime left pending. */
    method RecoverPreviousRuntimes()
      modifies this`records
      ensures records == RecoverPrevious(old(records), runtime)
    {
      var state := StateOf(records);
      ghost var before := records;
      for n := 0 to |state.order|
        invariant records == before + RecoveryRecords(state, runtime, n)
      {
        var id := state.order[n];
        if id in state.items {
          var item := state.items[id];
          if !Settled(item) && item.begin.Begin? && item.begin.runtime != runtime {
            if WorkspaceUndispatched(item) || UiaUndispatched(item) {
              AppendRecord(Result(item.begin.id, item.begin.runtime, ReturnedError, None, None, true));
            } else {
              var external := MergedAs(item, UncertainOutcome);
              if external.Some? && external.value.reason.None? {
                external := Some(external.value.(reason := Some(RUNTIME_ENDED)));
              }
              AppendRecord(Uncertain(item.begin.id, item.begin.runtime, RUNTIME_ENDED, external));
            }
          }
        }
      }
    }

    /** `_compact_locked`: choose the resolved external history that stays, then rewrite the file operation by operation. */
    method CompactFile(now: int)
      modifies this`records
      ensures old(Valid()) ==> Valid()
      ensures records == Compact(old(records), now, cfg.retention)
    {
      if Valid() { StepKeeps(cfg, View(), CompactJournal(now)); }
      var valid := ValidateRecords(records);
      if !valid { return; }
      var state := StateOf(records);
      var allowed := SelectHistory(state, now, cfg.retention);
      records := Rewrite(state, allowed);
    }

    // ----- Calls -----

    method BeginOperation(opType: OpType, uia: bool, external: Option<External>, started: Stamp) returns (effect: Effect)
      modifies this
      ensures effect == Raise(InvalidMetadata) <==> uia && !opType.NativeUia?
      ensures old(Valid()) ==>
                (effect == Raise(OperationLimit) <==>
                   !(uia && !opType.NativeUia?) && external.Some? && |UnresolvedExternals(old(records))| == cfg.externalQuota)
      ensures effect.Raise? ==> records == old(records)
      ensures old(Valid()) && effect.Append? ==>
                OthersKept(old(records), records, old(nextId)) && ItemOf(records, old(nextId)) == Some(NewItem(effect.record))
      ensures effect == EffectOf(cfg, old(View()), BeginOp(runtime, opType, uia, external, started))
      ensures old(Valid()) ==> Valid()
      ensures View() == Next(cfg, old(View()), BeginOp(runtime, opType, uia, external, started))
    {
      if Valid() { BeginMeaning(cfg, View(), runtime, opType, uia, external, started); }
      if Valid() { StepKeeps(cfg, View(), BeginOp(runtime, opType, uia, external, started)); }
      effect := BeginRecord(opType, uia, external, started);
    }

    method BeginRecord(opType: OpType, uia: bool, external: Option<External>, started: Stamp) returns (effect: Effect)
      modifies this
      ensures effect == EffectOf(cfg, old(View()), BeginOp(runtime, opType, uia, external, started))
      ensures View() == Next(cfg, old(View()), BeginOp(runtime, opType, uia, external, started))
    {
      var id := nextId;
      nextId := nextId + 1;
      if uia && !opType.NativeUia? { return Raise(InvalidMetadata); }
      var record := Begin(id, runtime, opType, uia, external, started);
      if external.Some? {
        var open := ReadExternal(records, cfg.externalQuota);
        if open.None? || |UnresolvedIn(open.value)| >= cfg.externalQuota { return Raise(OperationLimit); }
      }
      AppendRecord(record);
      return Append(record);
    }

    method CheckpointWorkspaceEdit(h: Handle, files: nat, stage: Stage) returns (effect: Effect)
      modifies this`records
      ensures !effect.Append? ==> records == old(records)
      ensures !effect.Raise? ==> ItemOf(records, h.id).Some? && Workspace(ItemOf(records, h.id).value) == Held(stage, files)
      ensures effect.Append? ==>
                && OthersKept(old(records), records, h.id) && ItemOf(old(records), h.id).Some?
                && Workspace(ItemOf(old(records), h.id).value) == (if stage == Prepared then Absent else Held(Prepared, files))
                && WorkspaceCheckpointCall(records, cfg, runtime, h, files, stage) == Nothing
      ensures effect == EffectOf(cfg, old(View()), CheckpointWorkspace(runtime, h, files, stage))
      ensures old(Valid()) ==> Valid()
      ensures View() == Next(cfg, old(View()), CheckpointWorkspace(runtime, h, files, stage))
    {
      WorkspaceMeaning(records, cfg, runtime, h, files, stage);
      if Valid() { StepKeeps(cfg, View(), CheckpointWorkspace(runtime, h, files, stage)); }
      var current := ReadOne(records, h.id);
      if current.None? || !current.value.begin.Begin? || h.runtime != runtime || current.value.begin.runtime != h.runtime {
        return Raise(InvalidHandle);
      }
      if Settled(current.value) { return Raise(AlreadyCompleted); }
      var existing := Workspace(current.value);
      if existing == Malformed { return Raise(CheckpointConflict); }
      if existing.Held? {
        if existing.identity != files { return Raise(CheckpointConflict); }
        if existing.stage == stage { return Nothing; }
        if existing.stage == MayDispatch || stage == Prepared { return Raise(CheckpointConflict); }
      } else {
        if stage != Prepared { return Raise(CheckpointConflict); }
        if |OtherUnresolvedWorkspaces(records, h.id)| >= cfg.workspaceQuota { return Raise(WorkspaceEditLimit); }
      }
      var last := Last(current.value);
      assert last.Checkpoint?;
      var record := last.(id := h.id, runtime := h.runtime, workspace := Held(stage, files));
      AppendRecord(record);
      return Append(record);
    }

    method FinishOperation(h: Handle, known: Known, outcome: Option<Verdict>, receipt: Option<nat>) returns (effect: Effect)
      modifies this`records
      ensures effect == Raise(AlreadyUncertain) <==> ItemOf(old(records), h.id).Some? && ItemOf(old(records), h.id).value.uncertain.Some?
      ensures effect != Raise(AlreadyUncertain) ==>
                && effect.Append? && OthersKept(old(records), records, h.id)
                && (ItemOf(old(records), h.id).None? ==> ItemOf(records, h.id).None?)
                && (ItemOf(old(records), h.id).Some? ==>
                      var item := ItemOf(old(records), h.id).value;
                      ItemOf(records, h.id) == Some(if Diverted(item, known) then item.(uncertain := Some(effect.record))
                                                    else item.(result := Some(effect.record))))
      ensures effect == EffectOf(cfg, old(View()), Finish(h, known, outcome, receipt))
      ensures old(Valid()) ==> Valid()
      ensures View() == Next(cfg, old(View()), Finish(h, known, outcome, receipt))
    {
      FinishMeaning(records, h, known, outcome, receipt);
      if Valid() { StepKeeps(cfg, View(), Finish(h, known, outcome, receipt)); }
      var current := ReadOne(records, h.id);
      if current.Some? && current.value.uncertain.Some? { return Raise(AlreadyUncertain); }
      var record := Result(h.id, h.runtime, known, outcome, None, known != EmptyResult);
      if current.Some? {
        if Diverted(current.value, known) {
          record := Uncertain(h.id, h.runtime, DISPATCHED_WITHOUT_RESULT, None);
        } else if Merged(current.value).Some? {
          var resolved := if outcome.Some? then outcome.value else if known in {RaisedResult, ReturnedError} then Failed else Succeeded;
          var external := Merged(current.value).value.(outcome := Some(resolved));
          if receipt.Some? { external := external.(receipt := receipt); }
          record := Result(h.id, h.runtime, known, Some(resolved), Some(external), known != EmptyResult);
        }
      }
      AppendRecord(record);
      return Append(record);
    }

    method MarkOperationUncertain(h: Handle, reason: nat, receipt: Option<nat>) returns (effect: Effect)
      modifies this`records
      ensures effect.Raise? <==> ItemOf(old(records), h.id).None? || ItemOf(old(records), h.id).value.result.Some?
      ensures !effect.Append? ==> records == old(records)
      ensures !effect.Raise? ==> ItemOf(records, h.id).Some? && ItemOf(records, h.id).value.uncertain.Some?
      ensures effect.Append? ==>
                && OthersKept(old(records), records, h.id) && MarkUncertainCall(records, h, reason, receipt) == Nothing
                && ItemOf(records, h.id) == Some(ItemOf(old(records), h.id).value.(uncertain := Some(effect.record)))
      ensures effect == EffectOf(cfg, old(View()), MarkUncertain(h, reason, receipt))
      ensures old(Valid()) ==> Valid()
      ensures View() == Next(cfg, old(View()), MarkUncertain(h, reason, receipt))
    {
      MarkMeaning(records, h, reason, receipt);
      if Valid() { StepKeeps(cfg, View(), MarkUncertain(h, reason, receipt)); }
      var current := ReadOne(records, h.id);
      if current.None? { return Raise(NoSuchOperation); }
      if current.value.result.Some? { return Raise(AlreadyCompleted); }
      if current.value.uncertain.Some? { return Nothing; }
      var external := MergedAs(current.value, UncertainOutcome);
      if external.Some? {
        external := Some(external.value.(reason := Some(reason)));
        if receipt.Some? { external := Some(external.value.(receipt := receipt)); }
      }
      var record := Uncertain(h.id, h.runtime, reason, external);
      AppendRecord(record);
      return Append(record);
    }

    method AcknowledgeOperation(id: OpId, verdict: Verdict, evidence: Option<nat>, at: Stamp) returns (effect: Effect)
      modifies this`records
      ensures !effect.Append? ==> records == old(records)
      ensures !effect.Raise? <==>
                && verdict in {AcknowledgedAs, Unresolvable} && evidence.Some? && ItemOf(old(records), id).Some?
                && ItemOf(old(records), id).value.result.None? && ItemOf(old(records), id).value.reconciliation.None?
                && (ItemOf(old(records), id).value.acknowledged.None?
                    || SaysAcknowledged(ItemOf(old(records), id), verdict, evidence.value))
      ensures !effect.Raise? ==> SaysAcknowledged(ItemOf(records, id), verdict, evidence.value)
      ensures effect.Append? ==>
                OthersKept(old(records), records, id) && AcknowledgeCall(records, runtime, id, verdict, evidence, at) == Nothing
      ensures effect == EffectOf(cfg, old(View()), Acknowledge(runtime, id, verdict, evidence, at))
      ensures old(Valid()) ==> Valid()
      ensures View() == Next(cfg, old(View()), Acknowledge(runtime, id, verdict, evidence, at))
    {
      AcknowledgeMeaning(records, runtime, id, verdict, evidence, at);
      if Valid() { StepKeeps(cfg, View(), Acknowledge(runtime, id, verdict, evidence, at)); }
      if verdict !in {AcknowledgedAs, Unresolvable} { return Raise(InvalidVerdict); }
      if evidence.None? { return Raise(EvidenceRequired); }
      var current := ReadOne(records, id);
      if current.None? { return Raise(NoSuchOperation); }
      if current.value.result.Some? { return Raise(AlreadyCompleted); }
      if current.value.reconciliation.Some? { return Raise(AlreadyReconciled); }
      if current.value.acknowledged.Some? {
        var existing := current.value.acknowledged.value;
        if existing.Acknowledged? && existing.verdict == verdict && existing.evidence == evidence.value { return Nothing; }
        return Raise(AlreadyAcknowledged);
      }
      var record := Acknowledged(id, runtime, at, verdict, evidence.value, MergedAs(current.value, verdict), true);
      AppendRecord(record);
      return Append(record);
    }
  }

  // ----- The two passes of compaction -----

  method SelectHistory(state: Ledger, now: int, retention: Retention) returns (allowed: set<OpId>)
    ensures allowed == Allowed(state, now, retention)
  {
    var candidates := [];
    for n := 0 to |state.order|
      invariant candidates == Candidates(state, now, retention, n)
    {
      var id := state.order[n];
      if id in state.items && Bounded(state.items[id]) && !Expired(state.items[id], now, retention) {
        candidates := candidates + [Candidate(SortKey(state.items[id]), n, id)];
      }
    }
    return Ids(Newest(candidates, retention.maxHistory));
  }

  method Rewrite(state: Ledger, allowed: set<OpId>) returns (retained: seq<Record>)
    ensures retained == Retained(state, allowed)
  {
    retained := [];
    for n := 0 to |state.order|
      invariant retained == RetainedUpTo(state, allowed, n)
    {
      RetainedNext(state, allowed, n);
      var piece := WriteOperation(state, allowed, state.order[n]);
      retained := retained + piece;
    }
  }

  /** What the file keeps of one operation. */
  function Piece(l: Ledger, allowed: set<OpId>, id: OpId): seq<Record> {
    if id in l.items && Stays(l.items[id], id, allowed) then KeptRecords(l.items[id]) else []
  }

  method WriteOperation(state: Ledger, allowed: set<OpId>, id: OpId) returns (piece: seq<Record>)
    ensures piece == Piece(state, allowed, id)
  {
    if id !in state.items || !Stays(state.items[id], id, allowed) { return []; }
    var item := state.items[id];
    return [item.begin] + Only(item.checkpoint) + Only(item.uncertain) + Only(TerminalOf(item));
  }

  /** The file after the first n operations of the state. */
  ghost function RetainedUpTo(l: Ledger, allowed: set<OpId>, n: nat): seq<Record>
    requires n <= |l.order|
  {
    Flatten(KeptOrder(l, allowed, n), ListingOf(l.items))
  }

  lemma RetainedNext(l: Ledger, allowed: set<OpId>, n: nat)
    requires n < |l.order|
    ensures RetainedUpTo(l, allowed, n + 1) == RetainedUpTo(l, allowed, n) + Piece(l, allowed, l.order[n])
  {
    var id := l.order[n];
    KeptOrderNext(l, allowed, n);
    if id in l.items && Stays(l.items[id], id, allowed) { FlattenOne(KeptOrder(l, allowed, n), id, ListingOf(l.items)); }
  }

  lemma KeptOrderNext(l: Ledger, allowed: set<OpId>, n: nat)
    requires n < |l.order|
    ensures var id := l.order[n];
            KeptOrder(l, allowed, n + 1)
              == if id in l.items && Stays(l.items[id], id, allowed) then KeptOrder(l, allowed, n) + [id] else KeptOrder(l, allowed, n)
  {
  }

  // ----- Streaming reads -----

  lemma Prefix(records: seq<Record>, n: nat)
    requires n < |records|
    ensures records[..n + 1] != [] && records[..n + 1][..|records[..n + 1]| - 1] == records[..n]
    ensures records[..n + 1][|records[..n + 1]| - 1] == records[n]
  {
  }

  /** `_state`. */
  method StateOf(records: seq<Record>) returns (state: Ledger)
    ensures state == Fold(records)
  {
    state := EmptyLedger;
    for n := 0 to |records|
      invariant state == Fold(records[..n])
    {
      Prefix(records, n);
      var r := records[n];
      if !r.Unknown? {
        if r.Begin? {
          if r.id !in state.items { state := state.(order := state.order + [r.id]); }
          state := state.(items := state.items[r.id := NewItem(r)]);
        } else if r.id in state.items {
          state := state.(items := state.items[r.id := Slot(state.items[r.id], r)]);
        }
      }
    }
    assert records[..|records|] == records;
  }

  /** `_read_state_locked(operation_id=id)`. */
  method ReadOne(records: seq<Record>, id: OpId) returns (item: Option<Item>)
    ensures item == ItemOf(records, id)
    ensures item == if id in Fold(records).items then Some(Fold(records).items[id]) else None
  {
    item := None;
    for n := 0 to |records|
      invariant item == ItemOf(records[..n], id)
    {
      Prefix(records, n);
      var r := records[n];
      if About(r, id) {
        if r.Begin? { item := Some(NewItem(r)); }
        else if item.Some? { item := Some(Slot(item.value, r)); }
      }
    }
    assert records[..|records|] == records;
    SingleReadIsFoldAt(records, id);
  }

  /** `_read_state_locked(unresolved_external_only=True)`: resolved operations leave the dictionary as they resolve. */
  method ReadExternal(records: seq<Record>, quota: nat) returns (items: Option<map<OpId, Item>>)
    ensures items == ExternalPass(records, quota)
    ensures DistinctBegins(records) && items.Some? ==> items.value.Keys == UnresolvedExternals(records)
  {
    var open: map<OpId, Item> := map[];
    for n := 0 to |records|
      invariant ExternalPass(records[..n], quota) == Some(open)
    {
      Prefix(records, n);
      var r := records[n];
      if !r.Unknown? {
        if r.Begin? {
          if r.external.Some? { open := open[r.id := NewItem(r)]; }
        } else if r.id in open {
          if Resolves(r) { open := open - {r.id}; } else { open := open[r.id := Slot(open[r.id], r)]; }
        }
      }
      if |open| > quota {
        RaisedStays(records, quota, n + 1);
        return None;
      }
    }
    assert records[..|records|] == records;
    if DistinctBegins(records) { ExternalCountAgrees(records, quota); }
    return Some(open);
  }

  lemma {:induction false} RaisedStays(records: seq<Record>, quota: nat, n: nat)
    requires n <= |records| && ExternalPass(records[..n], quota).None?
    ensures ExternalPass(records, quota).None?
    decreases |records| - n
  {
    if n == |records| {
      assert records[..n] == records;
    } else {
      Prefix(records, n);
      RaisedStays(records, quota, n + 1);
    }
  }

  /** `_validate_workspace_records`. */
  method ValidateRecords(records: seq<Record>) returns (ok: bool)
    ensures ok == Valid(records)
  {
    var check := NothingChecked;
    for n := 0 to |records|
      invariant CheckFrom(NothingChecked, records[..n]) == Some(check)
    {
      Prefix(records, n);
      var next := CheckRecord(check, records[n]);
      if next.None? {
        InvalidStays(records, n + 1);
        return false;
      }
      check := next.value;
    }
    assert records[..|records|] == records;
    return true;
  }

  lemma {:induction false} InvalidStays(records: seq<Record>, n: nat)
    requires n <= |records| && !Valid(records[..n])
    ensures !Valid(records)
    decreases |records| - n
  {
    if n == |records| {
      assert records[..n] == records;
    } else {
      Prefix(records, n);
      InvalidStays(records, n + 1);
    }
  }
}
