/** What each call of the recovery journal means for its caller: when it writes, what the operation then says, what the
    same call does the second time, and that no other operation is touched. */
module JournalContracts {
  import opened Prelude
  import opened JournalRecords
  import opened JournalFolds
  import opened JournalCalls
  import opened JournalTheorems

  /** Every operation but this one folds to the same state. */
  ghost predicate OthersKept(records: seq<Record>, records': seq<Record>, id: OpId) {
    forall other :: other != id ==> ItemOf(records', other) == ItemOf(records, other)
  }

  lemma AppendTouchesOne(records: seq<Record>, r: Record, id: OpId)
    requires About(r, id)
    ensures OthersKept(records, records + [r], id)
    ensures ItemOf(records + [r], id) == PutItem(ItemOf(records, id), r, id)
  {
    forall other ensures ItemOf(records + [r], other) == PutItem(ItemOf(records, other), r, other) { AppendOne(records, r, other); }
  }

  /** A new operation is pending under a fresh id. An external one is refused exactly when the unresolved external
      operations fill the quota. */
  lemma BeginMeaning(cfg: Config, j: Journal, runtime: RuntimeId, opType: OpType, uia: bool, external: Option<External>, started: Stamp)
    requires JournalOk(cfg, j)
    ensures var effect := BeginCall(j.records, cfg, j.nextId, runtime, opType, uia, external, started);
            && (effect == Raise(InvalidMetadata) <==> uia && !opType.NativeUia?)
            && (effect == Raise(OperationLimit) <==>
                  !(uia && !opType.NativeUia?) && external.Some? && |UnresolvedExternals(j.records)| == cfg.externalQuota)
            && (effect.Raise? ==> effect.error in {InvalidMetadata, OperationLimit}) && !effect.Nothing?
            && (effect.Append? ==>
                  && OthersKept(j.records, j.records + [effect.record], j.nextId)
                  && ItemOf(j.records + [effect.record], j.nextId) == Some(NewItem(effect.record)) && Pending(NewItem(effect.record)))
  {
    var effect := BeginCall(j.records, cfg, j.nextId, runtime, opType, uia, external, started);
    QuotaDecides(cfg, j);
    if effect.Append? { AppendTouchesOne(j.records, effect.record, j.nextId); }
  }

  /** The staged evidence enters prepared or moves on to may_dispatch for the same files; a repeated stage writes nothing. */
  lemma WorkspaceMeaning(records: seq<Record>, cfg: Config, runtime: RuntimeId, h: Handle, files: nat, stage: Stage)
    ensures var effect := WorkspaceCheckpointCall(records, cfg, runtime, h, files, stage);
            var item := ItemOf(records, h.id);
            && (effect.Nothing? ==> item.Some? && Workspace(item.value) == Held(stage, files))
            && (effect.Append? ==>
                  && item.Some? && !Settled(item.value)
                  && (if stage == Prepared then Workspace(item.value) == Absent else Workspace(item.value) == Held(Prepared, files))
                  && OthersKept(records, records + [effect.record], h.id))
            && (effect.Append? ==>
                  var after := ItemOf(records + [effect.record], h.id);
                  && after.Some? && Workspace(after.value) == Held(stage, files)
                  && Native(after.value) == Native(item.value) && PostconditionOf(after.value) == PostconditionOf(item.value)
                  && WorkspaceCheckpointCall(records + [effect.record], cfg, runtime, h, files, stage) == Nothing)
  {
    var effect := WorkspaceCheckpointCall(records, cfg, runtime, h, files, stage);
    FoldedItemsOk(records, h.id);
    if effect.Append? { AppendTouchesOne(records, effect.record, h.id); }
  }

  /** A finish is refused exactly while an uncertain mark is present. Otherwise it records the result, or an uncertain mark
      when a durable dispatch leaves the effect unknown. */
  lemma FinishMeaning(records: seq<Record>, h: Handle, known: Known, outcome: Option<Verdict>, receipt: Option<nat>)
    ensures var effect := FinishCall(records, h, known, outcome, receipt);
            var item := ItemOf(records, h.id);
            && (effect.Raise? <==> item.Some? && item.value.uncertain.Some?) && (effect.Raise? ==> effect.error == AlreadyUncertain)
            && !effect.Nothing?
            && (effect.Append? ==>
                  var after := ItemOf(records + [effect.record], h.id);
                  && OthersKept(records, records + [effect.record], h.id)
                  && (item.None? ==> after.None?)
                  && (item.Some? ==> after == Some(
                        if Diverted(item.value, known) then item.value.(uncertain := Some(effect.record))
                        else item.value.(result := Some(effect.record)))))
  {
    var effect := FinishCall(records, h, known, outcome, receipt);
    if effect.Append? { AppendTouchesOne(records, effect.record, h.id); }
  }

  /** An operation without a result is marked once; the second mark writes nothing. */
  lemma MarkMeaning(records: seq<Record>, h: Handle, reason: nat, receipt: Option<nat>)
    ensures var effect := MarkUncertainCall(records, h, reason, receipt);
            var item := ItemOf(records, h.id);
            && (effect.Raise? <==> item.None? || item.value.result.Some?)
            && (effect.Nothing? <==> item.Some? && item.value.result.None? && item.value.uncertain.Some?)
            && (effect.Append? ==>
                  && OthersKept(records, records + [effect.record], h.id)
                  && ItemOf(records + [effect.record], h.id) == Some(item.value.(uncertain := Some(effect.record)))
                  && MarkUncertainCall(records + [effect.record], h, reason, receipt) == Nothing)
  {
    var effect := MarkUncertainCall(records, h, reason, receipt);
    if effect.Append? { AppendTouchesOne(records, effect.record, h.id); }
  }

  /** The operation is acknowledged in these words. */
  predicate SaysAcknowledged(item: Option<Item>, verdict: Verdict, evidence: nat) {
    && item.Some? && item.value.acknowledged.Some? && item.value.acknowledged.value.Acknowledged?
    && item.value.acknowledged.value.verdict == verdict && item.value.acknowledged.value.evidence == evidence
  }

  /** An acknowledgement is accepted exactly for an operation without result and reconciliation that is not acknowledged
      in other words; accepted, the operation says so, and the same call again writes nothing. */
  lemma AcknowledgeMeaning(records: seq<Record>, runtime: RuntimeId, id: OpId, verdict: Verdict, evidence: Option<nat>, at: Stamp)
    ensures var effect := AcknowledgeCall(records, runtime, id, verdict, evidence, at);
            var item := ItemOf(records, id);
            && (!effect.Raise? <==>
                  && verdict in {AcknowledgedAs, Unresolvable} && evidence.Some? && item.Some?
                  && item.value.result.None? && item.value.reconciliation.None?
                  && (item.value.acknowledged.None? || SaysAcknowledged(item, verdict, evidence.value)))
            && (effect.Nothing? ==> SaysAcknowledged(item, verdict, evidence.value))
            && (effect.Append? ==>
                  && OthersKept(records, records + [effect.record], id)
                  && ItemOf(records + [effect.record], id) == Some(item.value.(acknowledged := Some(effect.record)))
                  && SaysAcknowledged(ItemOf(records + [effect.record], id), verdict, evidence.value)
                  && AcknowledgeCall(records + [effect.record], runtime, id, verdict, evidence, at) == Nothing)
  {
    var effect := AcknowledgeCall(records, runtime, id, verdict, evidence, at);
    if effect.Append? { AppendTouchesOne(records, effect.record, id); }
  }
}
