/** Records of the recovery journal and the folds that give them meaning (core/recovery.py). */
module JournalRecords {
  import opened Prelude

  type OpId = nat
  type RuntimeId = nat

  datatype Stage = Prepared | MayDispatch

  /** A staged checkpoint field: missing, present but not readable, or a stage with the identity it was taken for. */
  datatype Evidence = Absent | Malformed | Held(stage: Stage, identity: nat)

  /** A timestamp as written, with the time it parses to. Text 0 is the empty text. */
  datatype Stamp = Stamp(text: nat, parsed: Option<int>)

  datatype OpType = WorkspaceEdit | NativeUia(name: nat) | OtherType(name: nat)

  /** The known result of a finished operation; nothing stops a caller from giving an empty text. */
  datatype Known = RaisedResult | ReturnedError | EmptyResult | OtherResult(text: nat)

  datatype Verdict = Succeeded | Failed | NotDispatched | UncertainOutcome | AcknowledgedAs | Unresolvable

  /** External metadata: the tool identity and the protocol fields that later records override. */
  datatype External = External(identity: nat, stage: Stage, outcome: Option<Verdict>, reason: Option<nat>, receipt: Option<nat>)

  datatype Record =
    | Unknown
    | Begin(id: OpId, runtime: RuntimeId, opType: OpType, uiaProtocol: bool, external: Option<External>, started: Stamp)
    | Checkpoint(id: OpId, runtime: RuntimeId, external: Option<External>, native: Evidence, workspace: Evidence,
                 postcondition: Option<nat>)
    | Result(id: OpId, runtime: RuntimeId, known: Known, outcome: Option<Verdict>, external: Option<External>, complete: bool)
    | Uncertain(id: OpId, runtime: RuntimeId, reason: nat, external: Option<External>)
    | Reconciliation(id: OpId, runtime: RuntimeId, at: Stamp, verdict: Verdict, evidence: nat,
                     external: Option<External>, complete: bool)
    | Acknowledged(id: OpId, runtime: RuntimeId, at: Stamp, verdict: Verdict, evidence: nat,
                   external: Option<External>, complete: bool)

  predicate About(r: Record, id: OpId) { !r.Unknown? && r.id == id }

  /** The folded state of one operation: its begin record and the latest record of every other type. */
  datatype Item = Item(
    begin: Record, checkpoint: Option<Record>, result: Option<Record>, uncertain: Option<Record>,
    reconciliation: Option<Record>, acknowledged: Option<Record>)

  /** An insertion-ordered dictionary of items. */
  datatype Ledger = Ledger(order: seq<OpId>, items: map<OpId, Item>)

  const EmptyLedger: Ledger := Ledger([], map[])

  function NewItem(r: Record): Item { Item(r, None, None, None, None, None) }

  function Slot(item: Item, r: Record): Item {
    match r
    case Checkpoint(_, _, _, _, _, _) => item.(checkpoint := Some(r))
    case Result(_, _, _, _, _, _) => item.(result := Some(r))
    case Uncertain(_, _, _, _) => item.(uncertain := Some(r))
    case Reconciliation(_, _, _, _, _, _, _) => item.(reconciliation := Some(r))
    case Acknowledged(_, _, _, _, _, _, _) => item.(acknowledged := Some(r))
    case _ => item
  }

  // ----- The full fold (`_state`) -----

  function Put(l: Ledger, r: Record): Ledger {
    if r.Unknown? then l
    else if r.Begin? then Ledger(if r.id in l.items then l.order else l.order + [r.id], l.items[r.id := NewItem(r)])
    else if r.id in l.items then l.(items := l.items[r.id := Slot(l.items[r.id], r)])
    else l
  }

  function FoldFrom(l: Ledger, records: seq<Record>): Ledger {
    if records == [] then l else Put(FoldFrom(l, records[..|records| - 1]), records[|records| - 1])
  }

  function Fold(records: seq<Record>): Ledger { FoldFrom(EmptyLedger, records) }

  // ----- The single-operation read -----

  function PutItem(item: Option<Item>, r: Record, id: OpId): Option<Item> {
    if !About(r, id) then item
    else if r.Begin? then Some(NewItem(r))
    else if item.Some? then Some(Slot(item.value, r))
    else None
  }

  /** `_read_state_locked(operation_id=id)`: the streaming read that keeps one operation only. */
  function ItemOf(records: seq<Record>, id: OpId): Option<Item> {
    if records == [] then None else PutItem(ItemOf(records[..|records| - 1], id), records[|records| - 1], id)
  }

  // ----- The external-only read -----

  predicate Resolves(r: Record) { r.Result? || r.Reconciliation? || r.Acknowledged? }

  function PutExternal(items: map<OpId, Item>, r: Record): map<OpId, Item> {
    if r.Unknown? then items
    else if r.Begin? then (if r.external.Some? then items[r.id := NewItem(r)] else items)
    else if r.id !in items then items
    else if Resolves(r) then items - {r.id}
    else items[r.id := Slot(items[r.id], r)]
  }

  /** `_read_state_locked(unresolved_external_only=True)`; None when the pass raises `operation_limit`. */
  function ExternalPass(records: seq<Record>, quota: nat): Option<map<OpId, Item>> {
    if records == [] then Some(map[])
    else
      var before := ExternalPass(records[..|records| - 1], quota);
      if before.None? then None
      else
        var items := PutExternal(before.value, records[|records| - 1]);
        if |items| > quota then None else Some(items)
  }

  // ----- What an item says -----

  predicate Resolved(item: Item) { item.result.Some? || item.reconciliation.Some? || item.acknowledged.Some? }

  predicate Pending(item: Item) { !Resolved(item) && item.uncertain.None? }

  predicate IsUncertain(item: Item) { !Resolved(item) && item.uncertain.Some? }

  predicate IsExternal(item: Item) { item.begin.Begin? && item.begin.external.Some? }

  predicate UnresolvedExternal(item: Item) { IsExternal(item) && !Resolved(item) }

  /** The staged evidence of the latest checkpoint. */
  function Native(item: Item): Evidence {
    if item.checkpoint.Some? && item.checkpoint.value.Checkpoint? then item.checkpoint.value.native else Absent
  }

  function Workspace(item: Item): Evidence {
    if item.checkpoint.Some? && item.checkpoint.value.Checkpoint? then item.checkpoint.value.workspace else Absent
  }

  predicate UnresolvedWorkspace(item: Item) {
    !Resolved(item) && (Workspace(item) != Absent || (item.begin.Begin? && item.begin.opType == WorkspaceEdit))
  }

  ghost function Those(l: Ledger, p: Item -> bool): set<OpId> { set id | id in l.items && p(l.items[id]) }

  // ----- Well-formed items -----

  ghost predicate ItemOk(item: Item, id: OpId) {
    && item.begin.Begin? && item.begin.id == id
    && (item.checkpoint.Some? ==> item.checkpoint.value.Checkpoint? && item.checkpoint.value.id == id)
    && (item.result.Some? ==> item.result.value.Result? && item.result.value.id == id)
    && (item.uncertain.Some? ==> item.uncertain.value.Uncertain? && item.uncertain.value.id == id)
    && (item.reconciliation.Some? ==> item.reconciliation.value.Reconciliation? && item.reconciliation.value.id == id)
    && (item.acknowledged.Some? ==> item.acknowledged.value.Acknowledged? && item.acknowledged.value.id == id)
  }
}
