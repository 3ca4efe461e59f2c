/** The external-only pass never raises: operations begin in turn, and behind each external one the quota still has room. */
module JournalQuota {
  import opened Prelude
  import opened JournalRecords
  import opened JournalFolds
  import opened JournalCompaction

  /** Operations are numbered in the order in which they begin. */
  ghost predicate RisingBegins(records: seq<Record>) {
    forall i, j :: 0 <= i < j < |records| && records[i].Begin? && records[j].Begin? ==> records[i].id < records[j].id
  }

  /** The unresolved external operations that began before this one. */
  ghost function Before(records: seq<Record>, id: OpId): set<OpId> { set k | k in UnresolvedExternals(records) && k < id }

  ghost predicate HasRoom(records: seq<Record>, quota: nat, id: OpId) {
    ItemOf(records, id).Some? && IsExternal(ItemOf(records, id).value) ==> |Before(records, id)| < quota
  }

  ghost predicate InTurn(records: seq<Record>, quota: nat) {
    RisingBegins(records) && (forall id :: HasRoom(records, quota, id)) && ExternalPass(records, quota).Some?
  }

  // ----- Appending -----

  /** A record other than a begin resolves operations or leaves them as they are. */
  lemma NoneReopens(records: seq<Record>, r: Record)
    requires !r.Begin?
    ensures UnresolvedExternals(records + [r]) <= UnresolvedExternals(records)
    ensures forall id :: ItemOf(records + [r], id).Some? ==>
              ItemOf(records, id).Some? && ItemOf(records + [r], id).value.begin == ItemOf(records, id).value.begin
  {
    forall id
      ensures ItemOf(records + [r], id).Some? ==>
                ItemOf(records, id).Some? && ItemOf(records + [r], id).value.begin == ItemOf(records, id).value.begin
      ensures id in UnresolvedExternals(records + [r]) ==> id in UnresolvedExternals(records)
    {
      AppendOne(records, r, id);
      UnresolvedAt(records, id);
      UnresolvedAt(records + [r], id);
    }
  }

  lemma PassGoesOn(records: seq<Record>, r: Record, quota: nat)
    requires ExternalPass(records, quota).Some? && !r.Begin?
    ensures ExternalPass(records + [r], quota).Some?
  {
    assert (records + [r])[..|records|] == records;
    var items := ExternalPass(records, quota).value;
    PassFits(records, quota);
    Subset(PutExternal(items, r).Keys, items.Keys);
    assert |PutExternal(items, r)| == |PutExternal(items, r).Keys| && |items| == |items.Keys|;
  }

  lemma PassFits(records: seq<Record>, quota: nat)
    requires ExternalPass(records, quota).Some?
    ensures |ExternalPass(records, quota).value| <= quota
  {
  }

  lemma AppendInTurn(records: seq<Record>, r: Record, quota: nat)
    requires InTurn(records, quota) && !r.Begin?
    ensures InTurn(records + [r], quota)
  {
    NoneReopens(records, r);
    PassGoesOn(records, r, quota);
    forall id ensures HasRoom(records + [r], quota, id) {
      assert HasRoom(records, quota, id);
      Subset(Before(records + [r], id), Before(records, id));
    }
  }

  lemma {:induction false} AppendAllInTurn(records: seq<Record>, later: seq<Record>, quota: nat)
    requires InTurn(records, quota) && forall k :: 0 <= k < |later| ==> !later[k].Begin?
    ensures InTurn(records + later, quota)
    decreases |later|
  {
    if later == [] {
      assert records + later == records;
    } else {
      var rest, last := later[..|later| - 1], later[|later| - 1];
      AppendAllInTurn(records, rest, quota);
      AppendInTurn(records + rest, last, quota);
      assert records + rest + [last] == records + later;
    }
  }

  // ----- Beginning -----

  ghost predicate StartsAfter(records: seq<Record>, id: OpId) {
    forall k :: 0 <= k < |records| && records[k].Begin? ==> records[k].id < id
  }

  /** A begin adds at most its own operation to the unresolved external ones. */
  lemma BeginAddsOne(records: seq<Record>, r: Record)
    requires r.Begin?
    ensures forall id :: id != r.id ==> ItemOf(records + [r], id) == ItemOf(records, id)
    ensures ItemOf(records + [r], r.id) == Some(NewItem(r))
    ensures UnresolvedExternals(records + [r]) <= UnresolvedExternals(records) + (if r.external.Some? then {r.id} else {})
  {
    forall id
      ensures id != r.id ==> ItemOf(records + [r], id) == ItemOf(records, id)
      ensures id == r.id ==> ItemOf(records + [r], id) == Some(NewItem(r))
      ensures id in UnresolvedExternals(records + [r]) ==> id in UnresolvedExternals(records) || (r.external.Some? && id == r.id)
    {
      AppendOne(records, r, id);
      UnresolvedAt(records, id);
      UnresolvedAt(records + [r], id);
    }
  }

  lemma RisingIsDistinct(records: seq<Record>)
    requires RisingBegins(records)
    ensures DistinctBegins(records)
  {
  }

  lemma PassBegins(records: seq<Record>, r: Record, quota: nat)
    requires RisingBegins(records) && ExternalPass(records, quota).Some? && r.Begin?
    requires r.external.Some? ==> |UnresolvedExternals(records)| < quota
    ensures ExternalPass(records + [r], quota).Some?
  {
    assert (records + [r])[..|records|] == records;
    RisingIsDistinct(records);
    ExternalCountAgrees(records, quota);
    PassFits(records, quota);
    var items := ExternalPass(records, quota).value;
    if r.external.Some? {
      assert PutExternal(items, r).Keys == items.Keys + {r.id};
      assert |PutExternal(items, r)| == |PutExternal(items, r).Keys| && |items| == |items.Keys|;
    }
  }

  lemma BeginInTurn(records: seq<Record>, r: Record, quota: nat)
    requires InTurn(records, quota) && r.Begin? && StartsAfter(records, r.id)
    requires r.external.Some? ==> |UnresolvedExternals(records)| < quota
    ensures InTurn(records + [r], quota)
  {
    BeginAddsOne(records, r);
    PassBegins(records, r, quota);
    forall id ensures HasRoom(records + [r], quota, id) {
      assert HasRoom(records, quota, id);
      if id == r.id {
        Subset(Before(records + [r], id), UnresolvedExternals(records));
      } else if ItemOf(records, id).Some? {
        BegunBefore(records, r.id, id);
        Subset(Before(records + [r], id), Before(records, id));
      }
    }
  }

  lemma BegunBefore(records: seq<Record>, last: OpId, id: OpId)
    requires StartsAfter(records, last) && ItemOf(records, id).Some?
    ensures id < last
  {
    if forall i :: 0 <= i < |records| && records[i].Begin? ==> records[i].id != id { NoBeginNoItem(records, id); }
  }

  // ----- Compacting -----

  ghost predicate Rising(order: seq<OpId>) { forall p, q :: 0 <= p < q < |order| ==> order[p] < order[q] }

  lemma {:induction false} OrderRises(records: seq<Record>)
    requires RisingBegins(records)
    ensures Rising(Fold(records).order)
  {
    if records != [] {
      var rest, last := records[..|records| - 1], records[|records| - 1];
      OrderRises(rest);
      if last.Begin? {
        FoldIsListed(rest);
        forall p | 0 <= p < |Fold(rest).order| ensures Fold(rest).order[p] < last.id {
          assert Fold(rest).order[p] in Fold(rest).order;
          SingleReadIsFoldAt(rest, Fold(rest).order[p]);
          BegunBefore(rest, last.id, Fold(rest).order[p]);
        }
      }
    }
  }

  lemma {:induction false} KeptOrderRises(l: Ledger, allowed: set<OpId>, n: nat)
    requires Listed(l) && Rising(l.order) && n <= |l.order|
    ensures Rising(KeptOrder(l, allowed, n))
  {
    if n > 0 {
      KeptOrderRises(l, allowed, n - 1);
      KeptOrderLists(l, allowed, n - 1);
      var kept := KeptOrder(l, allowed, n - 1);
      forall k | 0 <= k < |kept| ensures kept[k] < l.order[n - 1] { assert kept[k] in l.order[..n - 1]; }
    }
  }

  /** The rewritten journal up to the first n operations that stay. */
  ghost function RewrittenUpTo(l: Ledger, allowed: set<OpId>, n: nat): seq<Record>
    requires n <= |KeptLedger(l, allowed).order|
  {
    Flatten(KeptLedger(l, allowed).order[..n], ListingOf(l.items))
  }

  lemma RewrittenFolds(l: Ledger, allowed: set<OpId>, n: nat, k: OpId)
    requires Listed(l) && ItemsOk(l) && n <= |KeptLedger(l, allowed).order|
    ensures ItemOf(RewrittenUpTo(l, allowed, n), k).Some? ==>
              && k in KeptLedger(l, allowed).order[..n] && k in l.items
              && ItemOf(RewrittenUpTo(l, allowed, n), k) == Some(Kept(l.items[k]))
  {
    var kept := KeptLedger(l, allowed);
    RetainedFolds(l, allowed);
    forall id | id in kept.items ensures ItemOk(kept.items[id], id) && Block(ListingOf(l.items)[id], kept.items[id]) {
      KeptBlock(l.items[id], id);
    }
    RefoldPrefix(kept, ListingOf(l.items), n);
    SingleReadIsFoldAt(RewrittenUpTo(l, allowed, n), k);
  }

  /** Of the operations written so far, those that are unresolved and external began before the next one. */
  lemma WrittenBefore(records: seq<Record>, allowed: set<OpId>, n: nat)
    requires RisingBegins(records) && n < |KeptLedger(Fold(records), allowed).order|
    ensures var l := Fold(records);
            var id := KeptLedger(l, allowed).order[n];
            && UnresolvedExternals(RewrittenUpTo(l, allowed, n)) <= Before(records, id)
            && StartsAfter(RewrittenUpTo(l, allowed, n), id)
  {
    var l := Fold(records);
    var kept := KeptLedger(l, allowed);
    var written := RewrittenUpTo(l, allowed, n);
    FoldIsOk(records);
    OrderRises(records);
    KeptOrderRises(l, allowed, |l.order|);
    forall k | ItemOf(written, k).Some? ensures k < kept.order[n] { RewrittenFolds(l, allowed, n, k); }
    forall k | k in UnresolvedExternals(written) ensures k in Before(records, kept.order[n]) {
      UnresolvedAt(written, k);
      RewrittenFolds(l, allowed, n, k);
      SingleReadIsFoldAt(records, k);
      UnresolvedAt(records, k);
    }
    forall p | 0 <= p < |written| && written[p].Begin? ensures written[p].id < kept.order[n] { BeginMakesItem(written, p); }
  }

  lemma KeptInTurn(records: seq<Record>, item: Item, id: OpId, quota: nat)
    requires InTurn(records, quota) && ItemOk(item, id) && StartsAfter(records, id)
    requires IsExternal(item) ==> |UnresolvedExternals(records)| < quota
    ensures InTurn(records + KeptRecords(item), quota)
  {
    var rest := Only(item.checkpoint) + Only(item.uncertain) + Only(TerminalOf(item));
    BeginInTurn(records, item.begin, quota);
    AppendAllInTurn(records + [item.begin], rest, quota);
    assert records + [item.begin] + rest == records + KeptRecords(item);
  }

  lemma RewrittenNext(records: seq<Record>, allowed: set<OpId>, quota: nat, n: nat)
    requires InTurn(records, quota) && n < |KeptLedger(Fold(records), allowed).order|
    requires InTurn(RewrittenUpTo(Fold(records), allowed, n), quota)
    ensures InTurn(RewrittenUpTo(Fold(records), allowed, n + 1), quota)
  {
    var l := Fold(records);
    var order := KeptLedger(l, allowed).order;
    var id := order[n];
    FoldIsOk(records);
    RetainedFolds(l, allowed);
    assert id in order && id in l.items;
    RoomForNext(records, allowed, quota, n, id);
    KeptInTurn(RewrittenUpTo(l, allowed, n), l.items[id], id, quota);
    assert order[..n + 1] == order[..n] + [id];
    FlattenOne(order[..n], id, ListingOf(l.items));
  }

  lemma RoomForNext(records: seq<Record>, allowed: set<OpId>, quota: nat, n: nat, id: OpId)
    requires InTurn(records, quota) && n < |KeptLedger(Fold(records), allowed).order|
    requires id == KeptLedger(Fold(records), allowed).order[n] && id in Fold(records).items
    ensures StartsAfter(RewrittenUpTo(Fold(records), allowed, n), id)
    ensures IsExternal(Fold(records).items[id]) ==> |UnresolvedExternals(RewrittenUpTo(Fold(records), allowed, n))| < quota
  {
    WrittenBefore(records, allowed, n);
    SingleReadIsFoldAt(records, id);
    assert HasRoom(records, quota, id);
    Subset(UnresolvedExternals(RewrittenUpTo(Fold(records), allowed, n)), Before(records, id));
  }

  lemma {:induction false} RewrittenInTurn(records: seq<Record>, allowed: set<OpId>, quota: nat, n: nat)
    requires InTurn(records, quota) && n <= |KeptLedger(Fold(records), allowed).order|
    ensures InTurn(RewrittenUpTo(Fold(records), allowed, n), quota)
  {
    if n == 0 {
      EmptyInTurn(quota);
    } else {
      RewrittenInTurn(records, allowed, quota, n - 1);
      RewrittenNext(records, allowed, quota, n - 1);
    }
  }

  lemma EmptyInTurn(quota: nat)
    ensures InTurn([], quota)
  {
  }

  lemma CompactInTurn(records: seq<Record>, now: int, cfg: Retention, quota: nat)
    requires InTurn(records, quota)
    ensures InTurn(Compact(records, now, cfg), quota)
  {
    if Valid(records) {
      var allowed := Allowed(Fold(records), now, cfg);
      var order := KeptLedger(Fold(records), allowed).order;
      RewrittenInTurn(records, allowed, quota, |order|);
      assert order[..|order|] == order;
    }
  }
}
