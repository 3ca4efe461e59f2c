/** Instructive journals: a run in which an operation that was marked uncertain gets a result record after all, an
    operation whose folded state compaction changes, and calls that leave a journal invalid. */
module JournalExamples {
  import opened Prelude
  import opened JournalRecords
  import opened JournalFolds
  import opened JournalCompaction
  import opened JournalCalls
  import opened JournalTheorems

  const NoHistory: Config := Config(1, 1, Retention(0, 0))
  const SomeExternal: External := External(7, Prepared, None, None, None)
  const SomeHandle: Handle := Handle(0, 0, OtherType(0))
  const SomeTime: Stamp := Stamp(1, Some(0))

  /** Begin an external operation, mark it uncertain, acknowledge it, compact, finish it late. */
  function LateFinish(): seq<Call> {
    [BeginOp(0, OtherType(0), false, Some(SomeExternal), SomeTime), MarkUncertain(SomeHandle, 5, None),
     Acknowledge(0, 0, AcknowledgedAs, Some(9), SomeTime), CompactJournal(0), Finish(SomeHandle, OtherResult(0), None, None)]
  }

  const FirstRecord: Record := Begin(0, 0, OtherType(0), false, Some(SomeExternal), SomeTime)

  lemma AfterBegin()
    ensures RunJournal(NoHistory, LateFinish()[..1]) == Journal([FirstRecord], 1)
    ensures ItemOf([FirstRecord], 0) == Some(NewItem(FirstRecord))
  {
    RunStep(NoHistory, LateFinish(), 0);
    assert RunJournal(NoHistory, LateFinish()[..0]) == Journal([], 0);
    assert ExternalPass([], 1) == Some(map[]) && UnresolvedIn(map[]) == {};
    assert [] + [FirstRecord] == [FirstRecord];
    AppendOne([], FirstRecord, 0);
  }

  lemma AfterMark() returns (mark: Record)
    ensures mark.Uncertain? && mark.id == 0
    ensures RunJournal(NoHistory, LateFinish()[..2]) == Journal([FirstRecord, mark], 1)
    ensures ItemOf([FirstRecord, mark], 0) == Some(NewItem(FirstRecord).(uncertain := Some(mark)))
  {
    AfterBegin();
    RunStep(NoHistory, LateFinish(), 1);
    mark := MarkUncertainCall([FirstRecord], SomeHandle, 5, None).record;
    assert [FirstRecord] + [mark] == [FirstRecord, mark];
    AppendOne([FirstRecord], mark, 0);
  }

  lemma AckStep(mark: Record) returns (ack: Record)
    requires mark.Uncertain? && mark.id == 0
    requires ItemOf([FirstRecord, mark], 0) == Some(NewItem(FirstRecord).(uncertain := Some(mark)))
    ensures ack.Acknowledged? && ack.id == 0
    ensures AcknowledgeCall([FirstRecord, mark], 0, 0, AcknowledgedAs, Some(9), SomeTime) == Append(ack)
    ensures ItemOf([FirstRecord, mark] + [ack], 0) == Some(NewItem(FirstRecord).(uncertain := Some(mark), acknowledged := Some(ack)))
  {
    ack := AcknowledgeCall([FirstRecord, mark], 0, 0, AcknowledgedAs, Some(9), SomeTime).record;
    AppendOne([FirstRecord, mark], ack, 0);
  }

  /** The journal after the acknowledgement. */
  lemma BeforeCompaction() returns (mark: Record, ack: Record)
    ensures mark.Uncertain? && mark.id == 0 && ack.Acknowledged? && ack.id == 0
    ensures RunJournal(NoHistory, LateFinish()[..3]) == Journal([FirstRecord, mark] + [ack], 1)
    ensures ItemOf(RunJournal(NoHistory, LateFinish()[..2]).records, 0).Some?
    ensures ItemOf(RunJournal(NoHistory, LateFinish()[..2]).records, 0).value.uncertain.Some?
    ensures ItemOf([FirstRecord, mark] + [ack], 0) == Some(NewItem(FirstRecord).(uncertain := Some(mark), acknowledged := Some(ack)))
  {
    mark := AfterMark();
    ack := AckStep(mark);
    RunStep(NoHistory, LateFinish(), 2);
  }

  lemma AfterCompaction()
    ensures ItemOf(RunJournal(NoHistory, LateFinish()[..2]).records, 0).Some?
    ensures ItemOf(RunJournal(NoHistory, LateFinish()[..2]).records, 0).value.uncertain.Some?
    ensures ItemOf(RunJournal(NoHistory, LateFinish()[..4]).records, 0).None?
  {
    var mark, ack := BeforeCompaction();
    var records := [FirstRecord, mark] + [ack];
    RunStep(NoHistory, LateFinish(), 3);
    ShortJournalIsValid(records);
    DroppedWithoutHistory(records, 0, 0);
  }

  /** The property fails once compaction has dropped the operation: a late `finish` then appends a result without a begin. */
  lemma LateFinishAppendsResult()
    ensures ItemOf(RunJournal(NoHistory, LateFinish()[..2]).records, 0).Some?
    ensures ItemOf(RunJournal(NoHistory, LateFinish()[..2]).records, 0).value.uncertain.Some?
    ensures ItemOf(RunJournal(NoHistory, LateFinish()[..4]).records, 0).None?
    ensures exists r: Record :: r.Result? && r.id == 0 && r in RunJournal(NoHistory, LateFinish()[..5]).records
  {
    AfterCompaction();
    RunStep(NoHistory, LateFinish(), 4);
    FinishStep(RunJournal(NoHistory, LateFinish()[..4]));
  }

  lemma FinishStep(j: Journal)
    requires ItemOf(j.records, 0).None?
    ensures exists r: Record :: r.Result? && r.id == 0 && r in Next(NoHistory, j, LateFinish()[4]).records
  {
    var r := Result(0, 0, OtherResult(0), None, None, true);
    assert Next(NoHistory, j, LateFinish()[4]).records == j.records + [r];
    assert r in j.records + [r];
  }

  lemma ShortJournalIsValid(records: seq<Record>)
    requires |records| == 3 && records[0].Begin? && records[1].Uncertain? && records[2].Acknowledged?
    requires records[0].id == records[1].id == records[2].id
    ensures Valid(records)
  {
    var c := NothingChecked.(known := {records[0].id});
    CheckOne(NothingChecked, records[0]);
    CheckOne(c, records[1]);
    CheckOne(c, records[2]);
    CheckAppend(NothingChecked, [records[0]], [records[1]]);
    CheckAppend(NothingChecked, [records[0]] + [records[1]], [records[2]]);
    assert records == [records[0]] + [records[1]] + [records[2]];
  }

  /** With no history to keep, compaction drops every resolved external operation. */
  lemma DroppedWithoutHistory(records: seq<Record>, now: int, id: OpId)
    requires Valid(records) && ItemOf(records, id).Some? && Resolved(ItemOf(records, id).value) && IsExternal(ItemOf(records, id).value)
    ensures ItemOf(Compact(records, now, Retention(0, 0)), id).None?
  {
    CompactFolds(records, now, Retention(0, 0));
    SingleReadIsFoldAt(records, id);
    SingleReadIsFoldAt(Compact(records, now, Retention(0, 0)), id);
  }

  // ----- A kept operation that compaction changes -----

  /** A journal that validation accepts although no run of the calls writes it: both kinds of resolution. */
  function BothResolutions(): seq<Record> {
    [Begin(0, 0, OtherType(0), false, None, SomeTime), Acknowledged(0, 0, SomeTime, AcknowledgedAs, 1, None, true),
     Reconciliation(0, 0, SomeTime, Succeeded, 2, None, true)]
  }

  lemma BothFolded()
    ensures Valid(BothResolutions()) && ItemOf(BothResolutions(), 0).Some?
    ensures var item := ItemOf(BothResolutions(), 0).value;
            item.acknowledged.Some? && item.reconciliation.Some? && item.result.None? && !IsExternal(item)
  {
    var rs := BothResolutions();
    var c := NothingChecked.(known := {0});
    CheckOne(NothingChecked, rs[0]);
    CheckOne(c, rs[1]);
    CheckOne(c.(closed := {0}), rs[2]);
    CheckAppend(NothingChecked, [rs[0]], [rs[1]]);
    CheckAppend(NothingChecked, [rs[0]] + [rs[1]], [rs[2]]);
    AppendOne([], rs[0], 0);
    AppendOne([rs[0]], rs[1], 0);
    AppendOne([rs[0]] + [rs[1]], rs[2], 0);
    assert [] + [rs[0]] == [rs[0]] && rs == [rs[0]] + [rs[1]] + [rs[2]];
  }

  /** Compaction keeps this operation and drops its reconciliation. */
  lemma CompactionChangesBoth(now: int, cfg: Retention)
    ensures Valid(BothResolutions()) && ItemOf(Compact(BothResolutions(), now, cfg), 0).Some?
    ensures ItemOf(Compact(BothResolutions(), now, cfg), 0) != ItemOf(BothResolutions(), 0)
  {
    BothFolded();
    CompactionKeeps(BothResolutions(), now, cfg, 0);
    CompactionPreservesMeaning(BothResolutions(), now, cfg, 0);
  }

  // ----- Calls that leave an invalid journal -----

  const NativeBegin: Record := Begin(0, 0, OtherType(0), false, None, SomeTime)
  const NativeAck: Record := Acknowledged(0, 0, SomeTime, AcknowledgedAs, 1, None, true)
  const PreparedEdit: Record := Checkpoint(0, 0, None, Absent, Held(Prepared, 3), None)

  lemma TwoRecords(second: Record)
    requires second in {NativeAck, PreparedEdit}
    ensures Valid([NativeBegin, second]) && ItemOf([NativeBegin, second], 0) == Some(Slot(NewItem(NativeBegin), second))
  {
    var c := NothingChecked.(known := {0});
    CheckOne(NothingChecked, NativeBegin);
    CheckOne(c, second);
    CheckAppend(NothingChecked, [NativeBegin], [second]);
    assert [] + [NativeBegin] == [NativeBegin] && [NativeBegin] + [second] == [NativeBegin, second];
    AppendOne([], NativeBegin, 0);
    AppendOne([NativeBegin], second, 0);
  }

  /** A postcondition checkpoint after an acknowledgement. */
  lemma LatePostcondition()
    ensures Valid([NativeBegin, NativeAck]) && PostconditionCall([NativeBegin, NativeAck], SomeHandle, 4).Append?
    ensures !Valid([NativeBegin, NativeAck] + [PostconditionCall([NativeBegin, NativeAck], SomeHandle, 4).record])
  {
    TwoRecords(NativeAck);
    var records := [NativeBegin, NativeAck];
    AppendValid(records, PostconditionCall(records, SomeHandle, 4).record);
    ValidationTracks(records, 0);
  }

  /** A finish with an empty result over workspace evidence. */
  lemma EmptyFinish()
    ensures Valid([NativeBegin, PreparedEdit])
    ensures var effect := FinishCall([NativeBegin, PreparedEdit], SomeHandle, EmptyResult, None, None);
            effect.Append? && !Valid([NativeBegin, PreparedEdit] + [effect.record])
  {
    TwoRecords(PreparedEdit);
    var records := [NativeBegin, PreparedEdit];
    AppendValid(records, FinishCall(records, SomeHandle, EmptyResult, None, None).record);
    ValidationTracks(records, 0);
  }

  /** A reconciliation without source or data over workspace evidence. */
  lemma UnsoundReconciliation()
    ensures Valid([NativeBegin, PreparedEdit])
    ensures var effect := ReconcileCall([NativeBegin, PreparedEdit], 0, 0, Unresolvable, 2, false, false, SomeTime);
            effect.Append? && !Valid([NativeBegin, PreparedEdit] + [effect.record])
  {
    TwoRecords(PreparedEdit);
    var records := [NativeBegin, PreparedEdit];
    AppendValid(records, ReconcileCall(records, 0, 0, Unresolvable, 2, false, false, SomeTime).record);
    ValidationTracks(records, 0);
  }
}
