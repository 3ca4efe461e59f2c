/** What the recovery journal promises over every run of its calls, restarts and compactions. */
module JournalTheorems {
  import opened Prelude
  import opened JournalRecords
  import opened JournalFolds
  import opened JournalCompaction
  import opened JournalQuota
  import opened JournalCalls

  // ----- How the folded state of one operation moves -----

  /** Staged evidence keeps its identity and never goes back from may_dispatch. */
  ghost predicate EvidenceKept(a: Evidence, b: Evidence) {
    && (a == Malformed ==> b == Malformed)
    && (a.Held? ==> b.Held? && b.identity == a.identity && (a.stage == MayDispatch ==> b.stage == MayDispatch))
  }

  /** One checkpoint call at most enters prepared, or moves prepared to may_dispatch. */
  ghost predicate StageStep(a: Evidence, b: Evidence) {
    || b == a
    || (a == Absent && b.Held? && b.stage == Prepared)
    || (a.Held? && a.stage == Prepared && b == Held(MayDispatch, a.identity))
  }

  function PostconditionOf(item: Item): Option<nat> {
    if item.checkpoint.Some? && item.checkpoint.value.Checkpoint? then item.checkpoint.value.postcondition else None
  }

  /** The dispatch stage of an external operation is durable. */
  predicate ExternallyDispatched(item: Item) {
    var ext := ExternalOf(item.checkpoint);
    ext.Some? && ext.value.stage == MayDispatch
  }

  /** Uncertainty is sticky, the first resolution is final, and no evidence is lost. */
  ghost predicate Later(a: Item, b: Item) {
    && b.begin == a.begin
    && (a.uncertain.Some? ==> b.uncertain == a.uncertain && b.result == a.result)
    && (a.result.Some? ==> b.result.Some?)
    && (a.reconciliation.Some? || a.acknowledged.Some? ==> b.reconciliation == a.reconciliation && b.acknowledged == a.acknowledged)
    && EvidenceKept(Workspace(a), Workspace(b)) && EvidenceKept(Native(a), Native(b))
    && (PostconditionOf(a).Some? ==> PostconditionOf(b) == PostconditionOf(a))
    && (ExternallyDispatched(a) ==> ExternallyDispatched(b))
  }

  ghost predicate NotBoth(item: Item) { !(item.reconciliation.Some? && item.acknowledged.Some?) }

  /** The record fits the item it is appended to. */
  ghost predicate Fits(item: Item, r: Record) {
    && !r.Begin?
    && Later(item, Slot(item, r)) && (NotBoth(item) ==> NotBoth(Slot(item, r)))
    && StageStep(Workspace(item), Workspace(Slot(item, r))) && StageStep(Native(item), Native(Slot(item, r)))
  }

  /** What a call appends belongs to a live operation, which it fits, or comes from a finish of an operation that is gone. */
  ghost predicate AppendFits(cfg: Config, j: Journal, call: Call)
    requires !call.Restart? && !call.CompactJournal? && EffectOf(cfg, j, call).Append?
  {
    var r := EffectOf(cfg, j, call).record;
    && !r.Unknown? && !r.Begin?
    && (ItemOf(j.records, r.id).Some? ==> Fits(ItemOf(j.records, r.id).value, r))
    && (ItemOf(j.records, r.id).None? ==> call.Finish? && r.Result?)
  }

  predicate CheckpointCall(call: Call) {
    call.DispatchExternal? || call.CheckpointNative? || call.CheckpointPostcondition? || call.CheckpointWorkspace?
  }

  predicate OutcomeCall(call: Call) {
    call.FinishNotDispatched? || call.MarkUncertain? || call.Finish? || call.Acknowledge? || call.Reconcile?
  }

  lemma CheckpointFitsItem(cfg: Config, j: Journal, call: Call)
    requires CheckpointCall(call) && EffectOf(cfg, j, call).Append?
    ensures AppendFits(cfg, j, call)
  {
    FoldedItemsOk(j.records, EffectOf(cfg, j, call).record.id);
  }

  lemma OutcomeFitsItem(cfg: Config, j: Journal, call: Call)
    requires OutcomeCall(call) && EffectOf(cfg, j, call).Append?
    ensures AppendFits(cfg, j, call)
  {
  }

  /** Every call appends a record that fits: to a live operation, or to none at all. */
  lemma CallFits(cfg: Config, j: Journal, call: Call)
    requires !call.Restart? && !call.CompactJournal? && !call.BeginOp?
    requires EffectOf(cfg, j, call).Append?
    ensures AppendFits(cfg, j, call)
  {
    if CheckpointCall(call) { CheckpointFitsItem(cfg, j, call); } else { OutcomeFitsItem(cfg, j, call); }
  }

  // ----- The journal invariant -----

  ghost predicate JournalOk(cfg: Config, j: Journal) {
    && InTurn(j.records, cfg.externalQuota)
    && (forall id: OpId :: id >= j.nextId ==> ItemOf(j.records, id).None?)
    && (forall id :: ItemOf(j.records, id).Some? ==> NotBoth(ItemOf(j.records, id).value))
    && |UnresolvedExternals(j.records)| <= cfg.externalQuota
  }

  /** Resolved external operations and operations with a result are the only ones that compaction may drop. */
  ghost predicate Evictable(item: Item) { item.result.Some? || (Resolved(item) && IsExternal(item)) }

  ghost predicate ItemMoves(a: Option<Item>, b: Option<Item>) {
    if a.None? then b.None? else if b.None? then Evictable(a.value) else Later(a.value, b.value)
  }

  /** An operation id that was handed out keeps its meaning; one that was dropped never comes back. */
  ghost predicate Moves(j: Journal, j': Journal) {
    j.nextId <= j'.nextId && forall id: OpId :: id < j.nextId ==> ItemMoves(ItemOf(j.records, id), ItemOf(j'.records, id))
  }

  /** Nothing but a begin record makes an external operation unresolved. */
  lemma FewerUnresolved(a: seq<Record>, b: seq<Record>)
    requires forall id :: ItemOf(b, id).Some? ==> ItemOf(a, id).Some? && Later(ItemOf(a, id).value, ItemOf(b, id).value)
    ensures |UnresolvedExternals(b)| <= |UnresolvedExternals(a)|
  {
    forall id | id in UnresolvedExternals(b) ensures id in UnresolvedExternals(a) {
      UnresolvedAt(a, id);
      UnresolvedAt(b, id);
    }
    Subset(UnresolvedExternals(b), UnresolvedExternals(a));
  }

  // ----- Each kind of step -----

  lemma BeginKeeps(cfg: Config, j: Journal, call: Call)
    requires JournalOk(cfg, j) && call.BeginOp?
    ensures JournalOk(cfg, Next(cfg, j, call)) && Moves(j, Next(cfg, j, call))
  {
    var effect := EffectOf(cfg, j, call);
    if effect.Append? {
      var after := j.records + [effect.record];
      forall id ensures ItemOf(after, id) == if id == j.nextId then Some(NewItem(effect.record)) else ItemOf(j.records, id) {
        AppendOne(j.records, effect.record, id);
      }
      forall k | 0 <= k < |j.records| && j.records[k].Begin? ensures j.records[k].id < j.nextId { BeginMakesItem(j.records, k); }
      RoomToBegin(cfg, j, call);
      BeginInTurn(j.records, effect.record, cfg.externalQuota);
      QuotaAfterBegin(cfg, j, call);
    }
  }

  /** A begin is refused for its quota exactly when the unresolved external operations fill it. */
  lemma QuotaDecides(cfg: Config, j: Journal)
    requires JournalOk(cfg, j)
    ensures |UnresolvedIn(ExternalPass(j.records, cfg.externalQuota).value)| == |UnresolvedExternals(j.records)|
  {
    var items := ExternalPass(j.records, cfg.externalQuota).value;
    RisingIsDistinct(j.records);
    ExternalPassAgrees(j.records, cfg.externalQuota);
    assert UnresolvedIn(items) == items.Keys;
    ExternalCountAgrees(j.records, cfg.externalQuota);
  }

  lemma RoomToBegin(cfg: Config, j: Journal, call: Call)
    requires JournalOk(cfg, j) && call.BeginOp? && EffectOf(cfg, j, call).Append?
    ensures call.external.Some? ==> |UnresolvedExternals(j.records)| < cfg.externalQuota
  {
    QuotaDecides(cfg, j);
  }

  lemma QuotaAfterBegin(cfg: Config, j: Journal, call: Call)
    requires JournalOk(cfg, j) && call.BeginOp? && EffectOf(cfg, j, call).Append?
    ensures |UnresolvedExternals(j.records + [EffectOf(cfg, j, call).record])| <= cfg.externalQuota
  {
    var r := EffectOf(cfg, j, call).record;
    BeginAddsOne(j.records, r);
    RoomToBegin(cfg, j, call);
    Subset(UnresolvedExternals(j.records + [r]), UnresolvedExternals(j.records) + if call.external.Some? then {j.nextId} else {});
  }

  lemma CallKeeps(cfg: Config, j: Journal, call: Call)
    requires JournalOk(cfg, j) && !call.Restart? && !call.CompactJournal? && !call.BeginOp?
    ensures JournalOk(cfg, Next(cfg, j, call)) && Moves(j, Next(cfg, j, call))
  {
    var effect := EffectOf(cfg, j, call);
    if effect.Append? {
      CallFits(cfg, j, call);
      FittingKeeps(cfg, j, effect.record);
    } else {
      forall id ensures ItemMoves(ItemOf(j.records, id), ItemOf(j.records, id)) { }
    }
  }

  /** Appending a record that fits, or one that belongs to no operation, keeps the invariant. */
  lemma FittingKeeps(cfg: Config, j: Journal, r: Record)
    requires JournalOk(cfg, j) && !r.Unknown? && !r.Begin?
    requires ItemOf(j.records, r.id).Some? ==> Fits(ItemOf(j.records, r.id).value, r)
    ensures JournalOk(cfg, j.(records := j.records + [r])) && Moves(j, j.(records := j.records + [r]))
  {
    var after := j.records + [r];
    forall id ensures ItemOf(after, id) == PutItem(ItemOf(j.records, id), r, id) { AppendOne(j.records, r, id); }
    AppendInTurn(j.records, r, cfg.externalQuota);
    FewerUnresolved(j.records, after);
  }

  // ----- Restart recovery -----

  /** What recovery makes of one operation. */
  function RecoveredItem(item: Option<Item>, runtime: RuntimeId): Option<Item> {
    if item.None? || Recovery(item.value, runtime).None? then item else Some(Slot(item.value, Recovery(item.value, runtime).value))
  }

  lemma RecoveryRecordFits(item: Item, id: OpId, runtime: RuntimeId)
    requires ItemOk(item, id) && Recovery(item, runtime).Some?
    ensures var r := Recovery(item, runtime).value; (r.Result? || r.Uncertain?) && About(r, id)
  {
  }

  lemma AppendSlot(records: seq<Record>, slot: Option<Record>, id: OpId)
    ensures ItemOf(records + Only(slot), id) == if slot.Some? then PutItem(ItemOf(records, id), slot.value, id) else ItemOf(records, id)
  {
    if slot.Some? { AppendOne(records, slot.value, id); } else { assert records + Only(slot) == records; }
  }

  lemma RecoveryNext(records: seq<Record>, l: Ledger, runtime: RuntimeId, n: nat)
    requires 0 < n <= |l.order| && l.order[n - 1] in l.items
    ensures records + RecoveryRecords(l, runtime, n)
         == (records + RecoveryRecords(l, runtime, n - 1)) + Only(Recovery(l.items[l.order[n - 1]], runtime))
  {
  }

  /** The journal once recovery has dealt with the first n operations. */
  ghost function RecoveredUpTo(records: seq<Record>, l: Ledger, runtime: RuntimeId, n: nat): seq<Record>
    requires n <= |l.order|
  {
    records + RecoveryRecords(l, runtime, n)
  }

  lemma RecoveryTurn(records: seq<Record>, l: Ledger, runtime: RuntimeId, n: nat, id: OpId)
    requires 0 < n <= |l.order| && l.order[n - 1] in l.items && ItemOk(l.items[l.order[n - 1]], l.order[n - 1])
    requires id == l.order[n - 1] ==> ItemOf(RecoveredUpTo(records, l, runtime, n - 1), id) == Some(l.items[id])
    ensures id == l.order[n - 1] ==> ItemOf(RecoveredUpTo(records, l, runtime, n), id) == RecoveredItem(Some(l.items[id]), runtime)
    ensures id != l.order[n - 1] ==>
              ItemOf(RecoveredUpTo(records, l, runtime, n), id) == ItemOf(RecoveredUpTo(records, l, runtime, n - 1), id)
  {
    var who := l.order[n - 1];
    RecoveryNext(records, l, runtime, n);
    RecoveryOne(RecoveredUpTo(records, l, runtime, n - 1), l.items[who], who, runtime, id);
  }

  /** The first n operations have well-formed items and are not `id`. */
  ghost predicate OthersFirst(l: Ledger, n: nat, id: OpId)
    requires n <= |l.order|
  {
    forall p :: 0 <= p < n ==> l.order[p] in l.items && ItemOk(l.items[l.order[p]], l.order[p]) && l.order[p] != id
  }

  /** What an operation folds to once recovery has dealt with the first n. */
  ghost predicate FoldsTo(records: seq<Record>, l: Ledger, runtime: RuntimeId, n: nat, id: OpId, item: Option<Item>)
    requires n <= |l.order|
  {
    ItemOf(RecoveredUpTo(records, l, runtime, n), id) == item
  }

  lemma NoTurnYet(records: seq<Record>, l: Ledger, runtime: RuntimeId, id: OpId)
    ensures FoldsTo(records, l, runtime, 0, id, ItemOf(records, id))
  {
    assert records + RecoveryRecords(l, runtime, 0) == records;
  }

  lemma AnothersTurn(records: seq<Record>, l: Ledger, runtime: RuntimeId, n: nat, id: OpId, item: Option<Item>)
    requires n < |l.order| && OthersFirst(l, n + 1, id) && FoldsTo(records, l, runtime, n, id, item)
    ensures FoldsTo(records, l, runtime, n + 1, id, item)
  {
    RecoveryTurn(records, l, runtime, n + 1, id);
  }

  /** Recovery does nothing to an operation while others have their turn. */
  lemma OthersTurn(records: seq<Record>, l: Ledger, runtime: RuntimeId, n: nat, id: OpId)
    requires n <= |l.order| && OthersFirst(l, n, id)
    ensures ItemOf(RecoveredUpTo(records, l, runtime, n), id) == ItemOf(records, id)
  {
    var item := ItemOf(records, id);
    NoTurnYet(records, l, runtime, id);
    for k := 0 to n
      invariant FoldsTo(records, l, runtime, k, id, item)
    {
      AnothersTurn(records, l, runtime, k, id, item);
    }
  }

  /** Once it had its turn, it stays as recovery left it. */
  lemma {:induction false} AfterItsTurn(records: seq<Record>, l: Ledger, runtime: RuntimeId, n: nat, p: nat)
    requires p < n <= |l.order| && OthersFirst(l, p, l.order[p])
    requires forall q :: p < q < n ==> l.order[q] in l.items && ItemOk(l.items[l.order[q]], l.order[q]) && l.order[q] != l.order[p]
    requires l.order[p] in l.items && ItemOk(l.items[l.order[p]], l.order[p]) && ItemOf(records, l.order[p]) == Some(l.items[l.order[p]])
    ensures ItemOf(RecoveredUpTo(records, l, runtime, n), l.order[p]) == RecoveredItem(Some(l.items[l.order[p]]), runtime)
    decreases n
  {
    if p == n - 1 {
      OthersTurn(records, l, runtime, p, l.order[p]);
    } else {
      AfterItsTurn(records, l, runtime, n - 1, p);
    }
    RecoveryTurn(records, l, runtime, n, l.order[p]);
  }

  lemma RecoveryOne(records: seq<Record>, item: Item, who: OpId, runtime: RuntimeId, id: OpId)
    requires ItemOk(item, who) && (id == who ==> ItemOf(records, id) == Some(item))
    ensures ItemOf(records + Only(Recovery(item, runtime)), id)
         == if id == who then RecoveredItem(Some(item), runtime) else ItemOf(records, id)
  {
    AppendSlot(records, Recovery(item, runtime), id);
    if Recovery(item, runtime).Some? { RecoveryRecordFits(item, who, runtime); }
  }

  /** Recovery treats every operation of the journal on its own. */
  lemma RecoveryAt(records: seq<Record>, runtime: RuntimeId, id: OpId)
    ensures ItemOf(RecoverPrevious(records, runtime), id) == RecoveredItem(ItemOf(records, id), runtime)
  {
    var l := Fold(records);
    FoldIsOk(records);
    SingleReadIsFoldAt(records, id);
    forall p | 0 <= p < |l.order| ensures l.order[p] in l.items && ItemOk(l.items[l.order[p]], l.order[p]) { assert l.order[p] in l.order; }
    if id in l.items {
      assert id in l.order;
      var p :| 0 <= p < |l.order| && l.order[p] == id;
      AfterItsTurn(records, l, runtime, |l.order|, p);
    } else {
      OthersTurn(records, l, runtime, |l.order|, id);
    }
  }

  /** Still pending although the runtime that began it is gone. */
  predicate LeftPending(item: Item, runtime: RuntimeId) { Pending(item) && item.begin.Begin? && item.begin.runtime != runtime }

  predicate WorkspaceDispatched(item: Item) { Workspace(item).Held? && Workspace(item).stage == MayDispatch }

  predicate HasErrorResult(item: Item) {
    item.uncertain.None? && item.result.Some? && item.result.value.Result? && item.result.value.known == ReturnedError
  }

  predicate OnlyUncertain(item: Item) { item.result.None? && item.uncertain.Some? }

  /** Restart recovery leaves no operation of an earlier runtime pending and touches no other. An operation gets an error
      result exactly when it provably did not dispatch; with a durable workspace dispatch and no UIA protocol it never does. */
  lemma RestartRecovery(records: seq<Record>, runtime: RuntimeId, id: OpId)
    requires ItemOf(records, id).Some?
    ensures ItemOf(RecoverPrevious(records, runtime), id).Some?
    ensures var before, after := ItemOf(records, id).value, ItemOf(RecoverPrevious(records, runtime), id).value;
            && !LeftPending(after, runtime)
            && (!LeftPending(before, runtime) ==> after == before)
            && (LeftPending(before, runtime) ==> (HasErrorResult(after) <==> WorkspaceUndispatched(before) || UiaUndispatched(before)))
            && (LeftPending(before, runtime) ==> (OnlyUncertain(after) <==> !HasErrorResult(after)))
            && (LeftPending(before, runtime) && !UnderUiaProtocol(before) && WorkspaceDispatched(before) ==> OnlyUncertain(after))
  {
    RecoveryAt(records, runtime, id);
    FoldedItemsOk(records, id);
  }

  lemma {:induction false} NothingToRecover(l: Ledger, runtime: RuntimeId, n: nat)
    requires n <= |l.order| && forall id :: id in l.items ==> Recovery(l.items[id], runtime).None?
    ensures RecoveryRecords(l, runtime, n) == []
  {
    if n > 0 { NothingToRecover(l, runtime, n - 1); }
  }

  /** A second recovery appends nothing. */
  lemma RecoveryIsIdempotent(records: seq<Record>, runtime: RuntimeId)
    ensures RecoverPrevious(RecoverPrevious(records, runtime), runtime) == RecoverPrevious(records, runtime)
  {
    var after := RecoverPrevious(records, runtime);
    forall id | id in Fold(after).items ensures Recovery(Fold(after).items[id], runtime).None? {
      SingleReadIsFoldAt(after, id);
      RecoveryAt(records, runtime, id);
      FoldedItemsOk(records, id);
    }
    NothingToRecover(Fold(after), runtime, |Fold(after).order|);
  }

  lemma {:induction false} RecoveryAddsNoBegin(l: Ledger, runtime: RuntimeId, n: nat)
    requires n <= |l.order|
    ensures forall k :: 0 <= k < |RecoveryRecords(l, runtime, n)| ==> !RecoveryRecords(l, runtime, n)[k].Begin?
  {
    if n > 0 { RecoveryAddsNoBegin(l, runtime, n - 1); }
  }

  lemma RecoveredIsLater(item: Item, id: OpId, runtime: RuntimeId)
    requires ItemOk(item, id)
    ensures var after := RecoveredItem(Some(item), runtime).value; Later(item, after) && (NotBoth(item) ==> NotBoth(after))
  {
  }

  lemma RestartKeeps(cfg: Config, j: Journal, call: Call)
    requires JournalOk(cfg, j) && call.Restart?
    ensures JournalOk(cfg, Next(cfg, j, call)) && Moves(j, Next(cfg, j, call))
  {
    if Valid(j.records) {
      var after := RecoverPrevious(j.records, call.runtime);
      forall id
        ensures ItemOf(after, id).Some? <==> ItemOf(j.records, id).Some?
        ensures ItemOf(after, id).Some? ==> Later(ItemOf(j.records, id).value, ItemOf(after, id).value)
        ensures ItemOf(after, id).Some? && NotBoth(ItemOf(j.records, id).value) ==> NotBoth(ItemOf(after, id).value)
      {
        RecoveryAt(j.records, call.runtime, id);
        FoldedItemsOk(j.records, id);
        if ItemOf(j.records, id).Some? { RecoveredIsLater(ItemOf(j.records, id).value, id, call.runtime); }
      }
      RecoveryAddsNoBegin(Fold(j.records), call.runtime, |Fold(j.records).order|);
      AppendAllInTurn(j.records, RecoveryRecords(Fold(j.records), call.runtime, |Fold(j.records).order|), cfg.externalQuota);
      FewerUnresolved(j.records, after);
    }
  }

  // ----- Compaction as a step -----

  lemma CompactionKeepsOrDrops(records: seq<Record>, now: int, cfg: Retention, id: OpId)
    requires Valid(records) && (ItemOf(records, id).Some? ==> NotBoth(ItemOf(records, id).value))
    ensures ItemOf(Compact(records, now, cfg), id) == ItemOf(records, id) || ItemOf(Compact(records, now, cfg), id).None?
    ensures ItemOf(records, id).Some? && ItemOf(Compact(records, now, cfg), id).None? ==> Evictable(ItemOf(records, id).value)
  {
    CompactFolds(records, now, cfg);
    SingleReadIsFoldAt(records, id);
    SingleReadIsFoldAt(Compact(records, now, cfg), id);
  }

  lemma CompactKeeps(cfg: Config, j: Journal, call: Call)
    requires JournalOk(cfg, j) && call.CompactJournal?
    ensures JournalOk(cfg, Next(cfg, j, call)) && Moves(j, Next(cfg, j, call))
  {
    if Valid(j.records) {
      var after := Compact(j.records, call.now, cfg.retention);
      CompactInTurn(j.records, call.now, cfg.retention, cfg.externalQuota);
      forall id ensures (ItemOf(after, id) == ItemOf(j.records, id) || ItemOf(after, id).None?)
                     && (ItemOf(j.records, id).Some? && ItemOf(after, id).None? ==> Evictable(ItemOf(j.records, id).value))
      {
        CompactionKeepsOrDrops(j.records, call.now, cfg.retention, id);
      }
      FewerUnresolved(j.records, after);
    }
  }

  // ----- Runs -----

  lemma StepKeeps(cfg: Config, j: Journal, call: Call)
    requires JournalOk(cfg, j)
    ensures JournalOk(cfg, Next(cfg, j, call)) && Moves(j, Next(cfg, j, call))
  {
    if call.BeginOp? { BeginKeeps(cfg, j, call); }
    else if call.Restart? { RestartKeeps(cfg, j, call); }
    else if call.CompactJournal? { CompactKeeps(cfg, j, call); }
    else { CallKeeps(cfg, j, call); }
  }

  lemma {:induction false} RunKeeps(cfg: Config, calls: seq<Call>)
    ensures JournalOk(cfg, RunJournal(cfg, calls))
  {
    if calls == [] {
      assert UnresolvedExternals([]) == {};
      EmptyInTurn(cfg.externalQuota);
    } else {
      RunKeeps(cfg, calls[..|calls| - 1]);
      StepKeeps(cfg, RunJournal(cfg, calls[..|calls| - 1]), calls[|calls| - 1]);
    }
  }

  /** Unresolved external operations never exceed their quota, in any run. */
  lemma QuotaHolds(cfg: Config, calls: seq<Call>)
    ensures |UnresolvedExternals(RunJournal(cfg, calls).records)| <= cfg.externalQuota
  {
    RunKeeps(cfg, calls);
  }

  /** In no run does the external-only pass raise; it always finds exactly the unresolved external operations. */
  lemma PassNeverRaises(cfg: Config, calls: seq<Call>)
    ensures var records := RunJournal(cfg, calls).records;
            && ExternalPass(records, cfg.externalQuota).Some?
            && ExternalPass(records, cfg.externalQuota).value.Keys == UnresolvedExternals(records)
  {
    var records := RunJournal(cfg, calls).records;
    RunKeeps(cfg, calls);
    RisingIsDistinct(records);
    ExternalCountAgrees(records, cfg.externalQuota);
  }

  lemma LaterTransitive(a: Item, b: Item, c: Item)
    requires Later(a, b) && Later(b, c)
    ensures Later(a, c)
  {
  }

  lemma RunStep(cfg: Config, calls: seq<Call>, n: nat)
    requires n < |calls|
    ensures RunJournal(cfg, calls[..n + 1]) == Next(cfg, RunJournal(cfg, calls[..n]), calls[n])
  {
    assert calls[..n + 1][..n] == calls[..n];
  }

  /** The journal before the first call and after each call of a run. */
  ghost function Journals(cfg: Config, calls: seq<Call>): (h: seq<Journal>)
    ensures |h| == |calls| + 1
  {
    seq(|calls| + 1, n requires 0 <= n <= |calls| => RunJournal(cfg, calls[..n]))
  }

  ghost predicate Onward(h: seq<Journal>) { forall m, n :: 0 <= m < |h| && n == m + 1 && n < |h| ==> Moves(h[m], h[n]) }

  ghost predicate Lawful(cfg: Config, h: seq<Journal>) {
    (forall n :: 0 <= n < |h| ==> JournalOk(cfg, h[n])) && Onward(h)
  }

  lemma RunsAreLawful(cfg: Config, calls: seq<Call>)
    ensures Lawful(cfg, Journals(cfg, calls))
  {
    var h := Journals(cfg, calls);
    forall n | 0 <= n < |h| ensures JournalOk(cfg, h[n]) { RunKeeps(cfg, calls[..n]); }
    forall m, n | 0 <= m < |h| && n == m + 1 && n < |h| ensures Moves(h[m], h[n]) {
      RunKeeps(cfg, calls[..m]);
      RunStep(cfg, calls, m);
      StepKeeps(cfg, h[m], calls[m]);
    }
  }

  /** The folded state of an operation at point n of a history. */
  ghost function ItemAt(h: seq<Journal>, n: nat, id: OpId): Option<Item>
    requires n < |h|
  {
    ItemOf(h[n].records, id)
  }

  ghost predicate Forward(a: Option<Item>, b: Option<Item>) {
    (a.None? ==> b.None?) && (b.Some? ==> a.Some? && Later(a.value, b.value))
  }

  lemma ForwardTransitive(a: Option<Item>, b: Option<Item>, c: Option<Item>)
    requires Forward(a, b) && Forward(b, c)
    ensures Forward(a, c)
  {
    if c.Some? { LaterTransitive(a.value, b.value, c.value); }
  }

  lemma ForwardStep(h: seq<Journal>, n: nat, id: OpId)
    requires Onward(h) && n + 1 < |h| && id < h[n].nextId
    ensures id < h[n + 1].nextId && Forward(ItemAt(h, n, id), ItemAt(h, n + 1, id))
    ensures ItemMoves(ItemAt(h, n, id), ItemAt(h, n + 1, id))
  {
    assert Moves(h[n], h[n + 1]);
  }

  /** From any point of a run to any later one, an operation that is still in the journal has only moved forward, and
      one that has left it does not return. */
  lemma {:induction false} OperationsMoveForward(h: seq<Journal>, m: nat, n: nat, id: OpId)
    requires Onward(h) && m <= n < |h| && id < h[m].nextId
    ensures id < h[n].nextId && Forward(ItemAt(h, m, id), ItemAt(h, n, id))
    decreases n
  {
    if m < n {
      OperationsMoveForward(h, m, n - 1, id);
      ForwardStep(h, n - 1, id);
      ForwardTransitive(ItemAt(h, m, id), ItemAt(h, n - 1, id), ItemAt(h, n, id));
    }
  }

  /** An operation that is in the journal was handed out before, so the rest of the run moves it forward. */
  lemma MovesForward(cfg: Config, calls: seq<Call>, m: nat, n: nat, id: OpId)
    requires m <= n <= |calls| && ItemAt(Journals(cfg, calls), m, id).Some?
    ensures Lawful(cfg, Journals(cfg, calls))
    ensures Forward(ItemAt(Journals(cfg, calls), m, id), ItemAt(Journals(cfg, calls), n, id))
  {
    RunsAreLawful(cfg, calls);
    OperationsMoveForward(Journals(cfg, calls), m, n, id);
  }

  /** Uncertainty is sticky: once marked, the mark stays and no result is ever recorded; a resolution, of either kind,
      is final and excludes the other. */
  lemma UncertaintyIsSticky(cfg: Config, calls: seq<Call>, m: nat, n: nat, id: OpId)
    requires m <= n <= |calls| && ItemAt(Journals(cfg, calls), m, id).Some? && ItemAt(Journals(cfg, calls), n, id).Some?
    ensures var a, b := ItemAt(Journals(cfg, calls), m, id).value, ItemAt(Journals(cfg, calls), n, id).value;
            && (a.uncertain.Some? ==> b.uncertain == a.uncertain && b.result == a.result)
            && (a.reconciliation.Some? ==> b.reconciliation == a.reconciliation && b.acknowledged.None?)
            && (a.acknowledged.Some? ==> b.acknowledged == a.acknowledged && b.reconciliation.None?)
  {
    MovesForward(cfg, calls, m, n, id);
    assert NotBoth(ItemAt(Journals(cfg, calls), m, id).value);
  }

  /** Staged evidence keeps its identity, never steps back, and no later checkpoint loses it. */
  lemma EvidenceIsNeverLost(cfg: Config, calls: seq<Call>, m: nat, n: nat, id: OpId)
    requires m <= n <= |calls| && ItemAt(Journals(cfg, calls), m, id).Some? && ItemAt(Journals(cfg, calls), n, id).Some?
    ensures var a, b := ItemAt(Journals(cfg, calls), m, id).value, ItemAt(Journals(cfg, calls), n, id).value;
            && EvidenceKept(Workspace(a), Workspace(b)) && EvidenceKept(Native(a), Native(b))
            && (PostconditionOf(a).Some? ==> PostconditionOf(b) == PostconditionOf(a))
            && (ExternallyDispatched(a) ==> ExternallyDispatched(b))
  {
    MovesForward(cfg, calls, m, n, id);
  }

  /** After an operation was marked uncertain, `finish` appends a result for it exactly when compaction has dropped it. */
  lemma ResultAfterUncertain(cfg: Config, calls: seq<Call>, m: nat, n: nat, h: Handle,
                             known: Known, outcome: Option<Verdict>, receipt: Option<nat>)
    requires m <= n <= |calls|
    requires ItemAt(Journals(cfg, calls), m, h.id).Some? && ItemAt(Journals(cfg, calls), m, h.id).value.uncertain.Some?
    ensures var effect := FinishCall(Journals(cfg, calls)[n].records, h, known, outcome, receipt);
            && (effect.Append? && effect.record.Result? <==> ItemAt(Journals(cfg, calls), n, h.id).None?)
            && (ItemAt(Journals(cfg, calls), n, h.id).Some? ==> effect == Raise(AlreadyUncertain))
  {
    MovesForward(cfg, calls, m, n, h.id);
  }

  /** Only a resolved external operation, or one with a result, is ever dropped: an unresolved uncertainty stays. */
  lemma {:induction false} UnresolvedStays(cfg: Config, h: seq<Journal>, m: nat, n: nat, id: OpId)
    requires Lawful(cfg, h) && m <= n < |h| && ItemAt(h, m, id).Some?
    requires forall k: nat :: m <= k <= n && ItemAt(h, k, id).Some? ==> !Evictable(ItemAt(h, k, id).value)
    ensures ItemAt(h, n, id).Some?
    decreases n
  {
    if m < n {
      UnresolvedStays(cfg, h, m, n - 1, id);
      assert JournalOk(cfg, h[n - 1]);
      ForwardStep(h, n - 1, id);
    }
  }

  /** A record for an operation that is not in the journal makes it invalid, and no later record repairs it: restart
      recovery and compaction refuse it from then on. */
  lemma {:induction false} OrphanIsRefused(records: seq<Record>, r: Record, later: seq<Record>)
    requires !r.Unknown? && !r.Begin? && ItemOf(records, r.id).None?
    ensures !Valid(records + [r] + later)
    decreases |later|
  {
    var all := records + [r] + later;
    if later == [] {
      assert all[..|all| - 1] == records && all[|all| - 1] == r;
      if Valid(records) { ValidationTracks(records, r.id); }
    } else {
      assert all[..|all| - 1] == records + [r] + later[..|later| - 1];
      OrphanIsRefused(records, r, later[..|later| - 1]);
    }
  }

  // ----- Which calls keep the journal valid -----

  /** The four ways in which a call leaves a journal that strict validation refuses. */
  ghost predicate Disturbs(cfg: Config, j: Journal, call: Call) {
    && !call.Restart? && !call.CompactJournal? && EffectOf(cfg, j, call).Append?
    && (|| (call.Finish? && ItemOf(j.records, call.h.id).None?)
        || (call.Finish? && call.known == EmptyResult && Workspace(ItemOf(j.records, call.h.id).value).Held?)
        || (call.CheckpointPostcondition? && ItemOf(j.records, call.h.id).Some? && Resolved(ItemOf(j.records, call.h.id).value))
        || (call.Reconcile? && !call.sound && ItemOf(j.records, call.id).Some? && Workspace(ItemOf(j.records, call.id).value).Held?))
  }

  lemma AppendValid(records: seq<Record>, r: Record)
    requires Valid(records)
    ensures Valid(records + [r]) <==> CheckRecord(CheckFrom(NothingChecked, records).value, r).Some?
  {
    assert (records + [r])[..|records|] == records;
  }

  /** What validation asks of a record, read off the item it is appended to. */
  ghost predicate Admissible(item: Option<Item>, r: Record) {
    if r.Unknown? then false
    else if r.Begin? then item.None?
    else
      && item.Some?
      && (r.Checkpoint? ==> !Resolved(item.value) && CheckpointFits(Some(Workspace(item.value)), r.workspace))
      && (Resolves(r) && Workspace(item.value).Held? ==> r.complete)
  }

  lemma ValidIffAdmissible(records: seq<Record>, r: Record)
    requires Valid(records) && !r.Unknown?
    ensures Valid(records + [r]) <==> Admissible(ItemOf(records, r.id), r)
  {
    AppendValid(records, r);
    ValidationTracks(records, r.id);
  }

  lemma CheckpointsAdmissible(cfg: Config, j: Journal, call: Call)
    requires CheckpointCall(call) && Valid(j.records) && EffectOf(cfg, j, call).Append?
    ensures var r := EffectOf(cfg, j, call).record;
            !r.Unknown? && (Admissible(ItemOf(j.records, r.id), r) <==> !Disturbs(cfg, j, call))
  {
    var r := EffectOf(cfg, j, call).record;
    ValidationTracks(j.records, r.id);
    FoldedItemsOk(j.records, r.id);
  }

  lemma OutcomesAdmissible(cfg: Config, j: Journal, call: Call)
    requires OutcomeCall(call) && EffectOf(cfg, j, call).Append?
    ensures var r := EffectOf(cfg, j, call).record;
            !r.Unknown? && (Admissible(ItemOf(j.records, r.id), r) <==> !Disturbs(cfg, j, call))
  {
  }

  /** An appending call keeps the journal valid if and only if it is none of the four. */
  lemma CallKeepsValid(cfg: Config, j: Journal, call: Call)
    requires JournalOk(cfg, j) && Valid(j.records) && !call.Restart? && !call.CompactJournal? && EffectOf(cfg, j, call).Append?
    ensures Valid(Next(cfg, j, call).records) <==> !Disturbs(cfg, j, call)
  {
    var r := EffectOf(cfg, j, call).record;
    if CheckpointCall(call) {
      CheckpointsAdmissible(cfg, j, call);
    } else if !call.BeginOp? {
      OutcomesAdmissible(cfg, j, call);
    }
    ValidIffAdmissible(j.records, r);
  }

  /** Outcomes of operations that the journal knows, complete where it matters. */
  ghost predicate Outcomes(known: set<OpId>, later: seq<Record>) {
    forall k :: 0 <= k < |later| ==>
      (later[k].Uncertain? || (later[k].Result? && later[k].complete)) && later[k].id in known
  }

  lemma {:induction false} OutcomesKeepValid(records: seq<Record>, later: seq<Record>)
    requires Valid(records) && Outcomes(CheckFrom(NothingChecked, records).value.known, later)
    ensures Valid(records + later)
    ensures CheckFrom(NothingChecked, records + later).value.known == CheckFrom(NothingChecked, records).value.known
    decreases |later|
  {
    if later == [] {
      assert records + later == records;
    } else {
      OutcomesKeepValid(records, later[..|later| - 1]);
      assert (records + later)[..|records + later| - 1] == records + later[..|later| - 1];
    }
  }

  lemma {:induction false} RecoveryOutcomes(l: Ledger, known: set<OpId>, runtime: RuntimeId, n: nat)
    requires ItemsOk(l) && n <= |l.order| && forall id :: id in l.items ==> id in known
    ensures Outcomes(known, RecoveryRecords(l, runtime, n))
  {
    if n > 0 { RecoveryOutcomes(l, known, runtime, n - 1); }
  }

  /** Recovery and compaction keep a valid journal valid. */
  lemma MaintenanceKeepsValid(cfg: Config, j: Journal, call: Call)
    requires Valid(j.records) && (call.Restart? || call.CompactJournal?)
    ensures Valid(Next(cfg, j, call).records)
  {
    if call.Restart? {
      var l := Fold(j.records);
      FoldIsOk(j.records);
      forall id | id in l.items ensures id in CheckFrom(NothingChecked, j.records).value.known {
        SingleReadIsFoldAt(j.records, id);
        ValidationTracks(j.records, id);
      }
      RecoveryOutcomes(l, CheckFrom(NothingChecked, j.records).value.known, call.runtime, |l.order|);
      OutcomesKeepValid(j.records, RecoveryRecords(l, call.runtime, |l.order|));
    } else {
      CompactedIsValid(j.records, call.now, cfg.retention);
    }
  }

  /** No call of the run disturbs the journal. */
  ghost predicate Undisturbed(cfg: Config, calls: seq<Call>) {
    forall n :: 0 <= n < |calls| ==> !Disturbs(cfg, RunJournal(cfg, calls[..n]), calls[n])
  }

  lemma UndisturbedSplits(cfg: Config, calls: seq<Call>)
    requires calls != []
    ensures var before := calls[..|calls| - 1];
            Undisturbed(cfg, calls) <==> Undisturbed(cfg, before) && !Disturbs(cfg, RunJournal(cfg, before), calls[|calls| - 1])
  {
    var p := calls[..|calls| - 1];
    if Undisturbed(cfg, calls) {
      forall n | 0 <= n < |p| ensures !Disturbs(cfg, RunJournal(cfg, p[..n]), p[n]) { assert p[..n] == calls[..n]; }
    } else {
      var n :| 0 <= n < |calls| && Disturbs(cfg, RunJournal(cfg, calls[..n]), calls[n]);
      if n < |p| { assert p[..n] == calls[..n]; }
    }
  }

  /** The journal of a run is valid if and only if no call of the run disturbed it. */
  lemma {:induction false} ValidIffUndisturbed(cfg: Config, calls: seq<Call>)
    ensures Valid(RunJournal(cfg, calls).records) <==> Undisturbed(cfg, calls)
  {
    if calls != [] {
      var before := calls[..|calls| - 1];
      UndisturbedSplits(cfg, calls);
      ValidIffUndisturbed(cfg, before);
      RunKeeps(cfg, before);
      OneMoreValid(cfg, RunJournal(cfg, before), calls[|calls| - 1]);
    }
  }

  lemma OneMoreValid(cfg: Config, j: Journal, call: Call)
    requires JournalOk(cfg, j)
    ensures Valid(Next(cfg, j, call).records) <==> Valid(j.records) && !Disturbs(cfg, j, call)
  {
    if Valid(j.records) {
      if call.Restart? || call.CompactJournal? { MaintenanceKeepsValid(cfg, j, call); }
      else if EffectOf(cfg, j, call).Append? { CallKeepsValid(cfg, j, call); }
    } else if !call.Restart? && !call.CompactJournal? && EffectOf(cfg, j, call).Append? {
      var r := EffectOf(cfg, j, call).record;
      assert (j.records + [r])[..|j.records|] == j.records;
    }
  }

  /** So after a restart on such a run no operation of an earlier runtime is pending. */
  lemma NothingLeftPending(cfg: Config, calls: seq<Call>, runtime: RuntimeId, id: OpId)
    requires Undisturbed(cfg, calls)
    ensures var after := ItemOf(Next(cfg, RunJournal(cfg, calls), Restart(runtime)).records, id);
            after.Some? ==> !LeftPending(after.value, runtime)
  {
    ValidIffUndisturbed(cfg, calls);
    var records := RunJournal(cfg, calls).records;
    RecoveryAt(records, runtime, id);
    if ItemOf(records, id).Some? { RestartRecovery(records, runtime, id); }
  }

  // ----- Compaction over runs -----

  /** In every run a compaction that keeps an operation keeps its folded state exactly. */
  lemma CompactionOverRuns(cfg: Config, calls: seq<Call>, now: int, id: OpId)
    requires Valid(RunJournal(cfg, calls).records) && ItemOf(Compact(RunJournal(cfg, calls).records, now, cfg.retention), id).Some?
    ensures ItemOf(Compact(RunJournal(cfg, calls).records, now, cfg.retention), id) == ItemOf(RunJournal(cfg, calls).records, id)
  {
    RunKeeps(cfg, calls);
    CompactionKeepsOrDrops(RunJournal(cfg, calls).records, now, cfg.retention, id);
  }
}
