/** The filtered reads of the journal agree with the full fold. */
module JournalFolds {
  import opened Prelude
  import opened JournalRecords

  // ----- One operation -----

  /** The single-operation read is the full fold at that operation. */
  lemma {:induction false} SingleReadIsFoldAt(records: seq<Record>, id: OpId)
    ensures ItemOf(records, id) == if id in Fold(records).items then Some(Fold(records).items[id]) else None
  {
    if records != [] { SingleReadIsFoldAt(records[..|records| - 1], id); }
  }

  lemma {:induction false} FoldedItemsOk(records: seq<Record>, id: OpId)
    ensures ItemOf(records, id).Some? ==> ItemOk(ItemOf(records, id).value, id)
  {
    if records != [] { FoldedItemsOk(records[..|records| - 1], id); }
  }

  /** The order column lists each item once. */
  ghost predicate Listed(l: Ledger) {
    && (forall id :: id in l.order <==> id in l.items)
    && (forall p, q :: 0 <= p < q < |l.order| ==> l.order[p] != l.order[q])
  }

  lemma {:induction false} FoldIsListed(records: seq<Record>)
    ensures Listed(Fold(records))
  {
    if records != [] { FoldIsListed(records[..|records| - 1]); }
  }

  lemma AppendOne(records: seq<Record>, r: Record, id: OpId)
    ensures ItemOf(records + [r], id) == PutItem(ItemOf(records, id), r, id)
    ensures Fold(records + [r]) == Put(Fold(records), r)
  {
    assert (records + [r])[..|records|] == records;
  }

  lemma {:induction false} FoldAppend(l: Ledger, a: seq<Record>, b: seq<Record>)
    ensures FoldFrom(l, a + b) == FoldFrom(FoldFrom(l, a), b)
    decreases |b|
  {
    if b == [] {
      assert a + b == a;
    } else {
      assert (a + b)[..|a + b| - 1] == a + b[..|b| - 1];
      FoldAppend(l, a, b[..|b| - 1]);
    }
  }

  // ----- Flatten and refold -----

  function SlotFor(item: Item, r: Record): Option<Record> {
    match r
    case Unknown => None
    case Begin(_, _, _, _, _, _) => Some(item.begin)
    case Checkpoint(_, _, _, _, _, _) => item.checkpoint
    case Result(_, _, _, _, _, _) => item.result
    case Uncertain(_, _, _, _) => item.uncertain
    case Reconciliation(_, _, _, _, _, _, _) => item.reconciliation
    case Acknowledged(_, _, _, _, _, _, _) => item.acknowledged
  }

  ghost predicate In(slot: Option<Record>, block: seq<Record>) { slot.Some? ==> slot.value in block }

  /** The records of an item, its begin first, the others in any order. */
  ghost predicate Block(block: seq<Record>, item: Item) {
    && BlockOf(block, item)
    && In(item.checkpoint, block) && In(item.result, block) && In(item.uncertain, block)
    && In(item.reconciliation, block) && In(item.acknowledged, block)
  }

  ghost predicate BlockOf(block: seq<Record>, item: Item) {
    && block != [] && block[0] == item.begin
    && (forall k :: 1 <= k < |block| ==> !block[k].Begin? && SlotFor(item, block[k]) == Some(block[k]))
  }

  ghost predicate PartSlot(part: Option<Record>, whole: Option<Record>, block: seq<Record>) {
    part == if whole.Some? && whole.value in block then whole else None
  }

  /** The part of an item that a prefix of its block has filled. */
  ghost predicate Part(part: Item, item: Item, block: seq<Record>) {
    && part.begin == item.begin
    && PartSlot(part.checkpoint, item.checkpoint, block) && PartSlot(part.result, item.result, block)
    && PartSlot(part.uncertain, item.uncertain, block) && PartSlot(part.reconciliation, item.reconciliation, block)
    && PartSlot(part.acknowledged, item.acknowledged, block)
  }

  lemma PartGrows(part: Item, item: Item, id: OpId, before: seq<Record>, r: Record)
    requires ItemOk(item, id) && Part(part, item, before) && !r.Begin? && SlotFor(item, r) == Some(r)
    ensures Part(Slot(part, r), item, before + [r])
  {
  }

  lemma FoldOne(l: Ledger, records: seq<Record>, r: Record)
    ensures FoldFrom(l, records + [r]) == Put(FoldFrom(l, records), r)
  {
    assert (records + [r])[..|records|] == records;
  }

  /** The ledger after a prefix of the block: `l` with the new item filled so far. */
  ghost predicate Filling(l: Ledger, after: Ledger, item: Item, id: OpId, block: seq<Record>) {
    && after.order == l.order + [id] && id in after.items
    && after.items == l.items[id := after.items[id]] && Part(after.items[id], item, block)
  }

  lemma FillingGrows(l: Ledger, after: Ledger, item: Item, id: OpId, block: seq<Record>, r: Record)
    requires Filling(l, after, item, id, block) && ItemOk(item, id) && !r.Begin? && SlotFor(item, r) == Some(r)
    ensures Filling(l, Put(after, r), item, id, block + [r])
  {
    PartGrows(after.items[id], item, id, block, r);
  }

  lemma {:induction false} FoldBlockPart(l: Ledger, block: seq<Record>, item: Item, id: OpId, n: nat)
    requires ItemOk(item, id) && BlockOf(block, item) && id !in l.items && 1 <= n <= |block|
    ensures Filling(l, FoldFrom(l, block[..n]), item, id, block[..n])
    decreases n
  {
    if n == 1 {
      FoldBegin(l, item, id);
      assert block[..1] == [item.begin];
    } else {
      FoldBlockPart(l, block, item, id, n - 1);
      FillingGrows(l, FoldFrom(l, block[..n - 1]), item, id, block[..n - 1], block[n - 1]);
      FoldOne(l, block[..n - 1], block[n - 1]);
      assert block[..n] == block[..n - 1] + [block[n - 1]];
    }
  }

  lemma FoldBegin(l: Ledger, item: Item, id: OpId)
    requires ItemOk(item, id) && id !in l.items
    ensures Filling(l, FoldFrom(l, [item.begin]), item, id, [item.begin])
  {
    FoldOne(l, [], item.begin);
    assert [] + [item.begin] == [item.begin];
  }

  lemma FoldBlock(l: Ledger, block: seq<Record>, item: Item, id: OpId)
    requires ItemOk(item, id) && Block(block, item) && id !in l.items
    ensures FoldFrom(l, block) == Ledger(l.order + [id], l.items[id := item])
  {
    FoldBlockPart(l, block, item, id, |block|);
    assert block[..|block|] == block;
    assert FoldFrom(l, block).items[id] == item;
  }

  /** `[record for item in state.values() for record in item.values()]`, each item listed as `listing` lists it. */
  function Flatten(order: seq<OpId>, listing: map<OpId, seq<Record>>): seq<Record> {
    if order == [] then []
    else Flatten(order[..|order| - 1], listing)
         + (if order[|order| - 1] in listing then listing[order[|order| - 1]] else [])
  }

  lemma FlattenOne(order: seq<OpId>, id: OpId, listing: map<OpId, seq<Record>>)
    requires id in listing
    ensures Flatten(order + [id], listing) == Flatten(order, listing) + listing[id]
  {
    assert (order + [id])[..|order|] == order;
  }

  ghost predicate Listing(l: Ledger, listing: map<OpId, seq<Record>>) {
    forall id :: id in l.items ==> id in listing && ItemOk(l.items[id], id) && Block(listing[id], l.items[id])
  }

  ghost function Restrict(items: map<OpId, Item>, order: seq<OpId>): map<OpId, Item> {
    map id | id in items && id in order :: items[id]
  }

  lemma RestrictGrows(items: map<OpId, Item>, order: seq<OpId>, id: OpId)
    requires id in items
    ensures Restrict(items, order + [id]) == Restrict(items, order)[id := items[id]]
  {
  }

  lemma {:induction false} RefoldPrefix(l: Ledger, listing: map<OpId, seq<Record>>, n: nat)
    requires Listed(l) && Listing(l, listing) && n <= |l.order|
    ensures Fold(Flatten(l.order[..n], listing)) == Ledger(l.order[..n], Restrict(l.items, l.order[..n]))
  {
    if n == 0 {
      assert Restrict(l.items, l.order[..0]) == map[];
    } else {
      var id := l.order[n - 1];
      assert l.order[..n][..n - 1] == l.order[..n - 1] && l.order[..n] == l.order[..n - 1] + [id];
      assert id in l.order && id in l.items && id !in l.order[..n - 1];
      RefoldPrefix(l, listing, n - 1);
      var before := Flatten(l.order[..n - 1], listing);
      FoldAppend(EmptyLedger, before, listing[id]);
      FoldBlock(Fold(before), listing[id], l.items[id], id);
      RestrictGrows(l.items, l.order[..n - 1], id);
    }
  }

  /** Flattening a folded state and folding it again is the identity, however each item lists its records. */
  lemma RefoldIsIdentity(l: Ledger, listing: map<OpId, seq<Record>>)
    requires Listed(l) && Listing(l, listing)
    ensures Fold(Flatten(l.order, listing)) == l
  {
    RefoldPrefix(l, listing, |l.order|);
    assert l.order[..|l.order|] == l.order;
    assert Restrict(l.items, l.order) == l.items;
  }

  // ----- External operations only -----

  ghost predicate DistinctBegins(records: seq<Record>) {
    forall i, j :: 0 <= i < j < |records| && records[i].Begin? && records[j].Begin? ==> records[i].id != records[j].id
  }

  lemma {:induction false} NoBeginNoItem(records: seq<Record>, id: OpId)
    requires forall i :: 0 <= i < |records| && records[i].Begin? ==> records[i].id != id
    ensures ItemOf(records, id).None?
  {
    if records != [] { NoBeginNoItem(records[..|records| - 1], id); }
  }

  lemma {:induction false} BeginMakesItem(records: seq<Record>, k: nat)
    requires k < |records| && records[k].Begin?
    ensures ItemOf(records, records[k].id).Some?
  {
    if k < |records| - 1 { BeginMakesItem(records[..|records| - 1], k); }
  }

  /** An external-only state is the full fold cut down to its unresolved external operations. */
  ghost predicate ExternalView(items: map<OpId, Item>, records: seq<Record>) {
    forall id :: (id in items <==> ItemOf(records, id).Some? && UnresolvedExternal(ItemOf(records, id).value))
              && (id in items ==> items[id] == ItemOf(records, id).value)
  }

  lemma ExternalStep(items: map<OpId, Item>, records: seq<Record>, r: Record)
    requires ExternalView(items, records) && DistinctBegins(records + [r])
    ensures ExternalView(PutExternal(items, r), records + [r])
  {
    forall id
      ensures id in PutExternal(items, r) <==> ItemOf(records + [r], id).Some? && UnresolvedExternal(ItemOf(records + [r], id).value)
      ensures (id in PutExternal(items, r) ==> PutExternal(items, r)[id] == ItemOf(records + [r], id).value)
    {
      AppendOne(records, r, id);
      FoldedItemsOk(records, id);
      if About(r, id) && r.Begin? {
        forall i | 0 <= i < |records| && records[i].Begin? ensures records[i].id != id {
          assert (records + [r])[i] == records[i] && (records + [r])[|records|] == r;
        }
        NoBeginNoItem(records, id);
      }
    }
  }

  lemma {:induction false} ExternalPassAgrees(records: seq<Record>, quota: nat)
    requires DistinctBegins(records)
    ensures ExternalPass(records, quota).Some? ==> ExternalView(ExternalPass(records, quota).value, records)
  {
    if records != [] {
      var before := records[..|records| - 1];
      ExternalPassAgrees(before, quota);
      if ExternalPass(records, quota).Some? {
        assert records == before + [records[|records| - 1]];
        ExternalStep(ExternalPass(before, quota).value, before, records[|records| - 1]);
      }
    }
  }

  ghost function UnresolvedExternals(records: seq<Record>): set<OpId> { Those(Fold(records), UnresolvedExternal) }

  /** For journals with distinct begin records the external-only pass counts exactly the unresolved external operations. */
  lemma ExternalCountAgrees(records: seq<Record>, quota: nat)
    requires DistinctBegins(records) && ExternalPass(records, quota).Some?
    ensures ExternalPass(records, quota).value.Keys == UnresolvedExternals(records)
    ensures |ExternalPass(records, quota).value| == |UnresolvedExternals(records)|
  {
    ExternalPassAgrees(records, quota);
    var items := ExternalPass(records, quota).value;
    forall id ensures id in items <==> id in UnresolvedExternals(records) { SingleReadIsFoldAt(records, id); }
    assert |items| == |items.Keys|;
  }

  lemma UnresolvedAt(records: seq<Record>, id: OpId)
    ensures id in UnresolvedExternals(records) <==> ItemOf(records, id).Some? && UnresolvedExternal(ItemOf(records, id).value)
  {
    SingleReadIsFoldAt(records, id);
  }
}
