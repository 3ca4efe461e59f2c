/** Strict validation and compaction of the journal (core/recovery.py), and what compaction preserves. */
module JournalCompaction {
  import opened Prelude
  import opened JournalRecords
  import opened JournalFolds

  datatype Retention = Retention(maxHistory: int, maxAge: nat)

  // ----- Validation (`_validate_workspace_records`) -----

  datatype Check = Check(known: set<OpId>, workspace: map<OpId, Evidence>, closed: set<OpId>)

  const NothingChecked: Check := Check({}, map[], {})

  predicate CheckpointFits(previous: Option<Evidence>, now: Evidence) {
    && now != Malformed
    && (previous.Some? && previous.value.Held? ==>
          now.Held? && now.identity == previous.value.identity && (previous.value.stage == MayDispatch ==> now.stage == MayDispatch))
  }

  /** None when the record is refused. */
  function CheckRecord(c: Check, r: Record): Option<Check> {
    if r.Unknown? then None
    else if r.Begin? then (if r.id in c.known then None else Some(c.(known := c.known + {r.id})))
    else if r.id !in c.known then None
    else if r.Checkpoint? then
      var previous := if r.id in c.workspace then Some(c.workspace[r.id]) else None;
      if r.id in c.closed || !CheckpointFits(previous, r.workspace) then None
      else Some(if r.workspace.Held? then c.(workspace := c.workspace[r.id := r.workspace]) else c)
    else if Resolves(r) then
      if r.id in c.workspace && !r.complete then None else Some(c.(closed := c.closed + {r.id}))
    else Some(c)
  }

  function CheckFrom(c: Check, records: seq<Record>): Option<Check> {
    if records == [] then Some(c)
    else
      var before := CheckFrom(c, records[..|records| - 1]);
      if before.None? then None else CheckRecord(before.value, records[|records| - 1])
  }

  predicate Valid(records: seq<Record>) { CheckFrom(NothingChecked, records).Some? }

  // ----- Which operations stay -----

  /** The terminal record that compaction writes: an acknowledgement before a reconciliation. */
  function TerminalOf(item: Item): Option<Record> {
    if item.acknowledged.Some? then item.acknowledged else item.reconciliation
  }

  function StampOf(r: Record): Stamp {
    if r.Reconciliation? || r.Acknowledged? then r.at else if r.Begin? then r.started else Stamp(0, None)
  }

  predicate Expired(item: Item, now: int, cfg: Retention)
    requires TerminalOf(item).Some?
  {
    var at, started := StampOf(TerminalOf(item).value).parsed, StampOf(item.begin).parsed;
    var ts := if at.Some? then at else started;
    ts.Some? && now - ts.value > cfg.maxAge
  }

  function SortKey(item: Item): nat
    requires TerminalOf(item).Some?
  {
    var at := StampOf(TerminalOf(item).value).text;
    if at != 0 then at else StampOf(item.begin).text
  }

  /** Resolved external operations without a known result: the history that is bounded. */
  predicate Bounded(item: Item) { item.result.None? && TerminalOf(item).Some? && IsExternal(item) }

  datatype Candidate = Candidate(key: nat, index: nat, id: OpId)

  predicate Qualifies(l: Ledger, now: int, cfg: Retention, id: OpId) {
    id in l.items && Bounded(l.items[id]) && !Expired(l.items[id], now, cfg)
  }

  function Candidates(l: Ledger, now: int, cfg: Retention, n: nat): seq<Candidate>
    requires n <= |l.order|
  {
    if n == 0 then []
    else
      var id := l.order[n - 1];
      var rest := Candidates(l, now, cfg, n - 1);
      if Qualifies(l, now, cfg, id)
      then rest + [Candidate(SortKey(l.items[id]), n - 1, id)] else rest
  }

  predicate OlderOrSame(a: Candidate, b: Candidate) { a.key < b.key || (a.key == b.key && a.index <= b.index) }

  function Insert(c: Candidate, sorted: seq<Candidate>): seq<Candidate> {
    if sorted == [] || OlderOrSame(sorted[|sorted| - 1], c) then sorted + [c]
    else Insert(c, sorted[..|sorted| - 1]) + [sorted[|sorted| - 1]]
  }

  function Sort(cs: seq<Candidate>): seq<Candidate> {
    if cs == [] then [] else Insert(cs[|cs| - 1], Sort(cs[..|cs| - 1]))
  }

  /** The newest `max` candidates, or all of them. */
  function Newest(cs: seq<Candidate>, max: int): seq<Candidate> {
    if max <= 0 then [] else if |cs| > max && |Sort(cs)| == |cs| then Sort(cs)[|cs| - max..] else cs
  }

  function Ids(cs: seq<Candidate>): set<OpId> { set k | 0 <= k < |cs| :: cs[k].id }

  function Allowed(l: Ledger, now: int, cfg: Retention): set<OpId> {
    Ids(Newest(Candidates(l, now, cfg, |l.order|), cfg.maxHistory))
  }

  predicate Stays(item: Item, id: OpId, allowed: set<OpId>) {
    item.result.None? && (TerminalOf(item).Some? && IsExternal(item) ==> id in allowed)
  }

  // ----- The rewritten journal (`_compact_locked`) -----

  function Only(slot: Option<Record>): seq<Record> { if slot.Some? then [slot.value] else [] }

  function KeptRecords(item: Item): seq<Record> {
    [item.begin] + Only(item.checkpoint) + Only(item.uncertain) + Only(TerminalOf(item))
  }

  function KeptOrder(l: Ledger, allowed: set<OpId>, n: nat): seq<OpId>
    requires n <= |l.order|
  {
    if n == 0 then []
    else
      var id := l.order[n - 1];
      KeptOrder(l, allowed, n - 1) + (if id in l.items && Stays(l.items[id], id, allowed) then [id] else [])
  }

  function ListingOf(items: map<OpId, Item>): map<OpId, seq<Record>> { map id | id in items :: KeptRecords(items[id]) }

  function Retained(l: Ledger, allowed: set<OpId>): seq<Record> {
    Flatten(KeptOrder(l, allowed, |l.order|), ListingOf(l.items))
  }

  /** Compaction of an invalid journal raises and leaves it as it is. */
  function Compact(records: seq<Record>, now: int, cfg: Retention): seq<Record> {
    if Valid(records) then Retained(Fold(records), Allowed(Fold(records), now, cfg)) else records
  }

  // ----- What the compacted journal folds to -----

  /** An item as compaction keeps it. */
  function Kept(item: Item): Item { if item.acknowledged.Some? then item.(reconciliation := None) else item }

  ghost function KeptItems(l: Ledger, allowed: set<OpId>): map<OpId, Item> {
    map id | id in l.items && Stays(l.items[id], id, allowed) :: Kept(l.items[id])
  }

  ghost function KeptLedger(l: Ledger, allowed: set<OpId>): Ledger {
    Ledger(KeptOrder(l, allowed, |l.order|), KeptItems(l, allowed))
  }

  ghost predicate ItemsOk(l: Ledger) { forall id :: id in l.items ==> ItemOk(l.items[id], id) }

  lemma {:induction false} KeptOrderLists(l: Ledger, allowed: set<OpId>, n: nat)
    requires Listed(l) && n <= |l.order|
    ensures forall id :: id in KeptOrder(l, allowed, n) <==> id in l.order[..n] && Stays(l.items[id], id, allowed)
    ensures forall p, q :: 0 <= p < q < |KeptOrder(l, allowed, n)| ==> KeptOrder(l, allowed, n)[p] != KeptOrder(l, allowed, n)[q]
  {
    if n > 0 {
      KeptOrderLists(l, allowed, n - 1);
      assert l.order[..n] == l.order[..n - 1] + [l.order[n - 1]];
      assert l.order[n - 1] in l.order;
    }
  }

  lemma KeptBlock(item: Item, id: OpId)
    requires ItemOk(item, id) && item.result.None?
    ensures ItemOk(Kept(item), id) && Block(KeptRecords(item), Kept(item))
  {
  }

  lemma {:induction false} FlattenAgrees(order: seq<OpId>, a: map<OpId, seq<Record>>, b: map<OpId, seq<Record>>)
    requires forall id :: id in order ==> id in a && id in b && a[id] == b[id]
    ensures Flatten(order, a) == Flatten(order, b)
  {
    if order != [] {
      assert order[|order| - 1] in order;
      FlattenAgrees(order[..|order| - 1], a, b);
    }
  }

  lemma RetainedFolds(l: Ledger, allowed: set<OpId>)
    requires Listed(l) && ItemsOk(l)
    ensures Listed(KeptLedger(l, allowed)) && Fold(Retained(l, allowed)) == KeptLedger(l, allowed)
  {
    KeptOrderLists(l, allowed, |l.order|);
    assert l.order[..|l.order|] == l.order;
    var kept := KeptLedger(l, allowed);
    var all := ListingOf(l.items);
    forall id | id in kept.items ensures ItemOk(kept.items[id], id) && Block(all[id], kept.items[id]) {
      KeptBlock(l.items[id], id);
    }
    RefoldIsIdentity(kept, all);
  }

  lemma FoldIsOk(records: seq<Record>)
    ensures Listed(Fold(records)) && ItemsOk(Fold(records))
  {
    FoldIsListed(records);
    forall id | id in Fold(records).items ensures ItemOk(Fold(records).items[id], id) {
      SingleReadIsFoldAt(records, id);
      FoldedItemsOk(records, id);
    }
  }

  /** The compacted journal folds to the items that stay. */
  lemma CompactFolds(records: seq<Record>, now: int, cfg: Retention)
    requires Valid(records)
    ensures Fold(Compact(records, now, cfg)) == KeptLedger(Fold(records), Allowed(Fold(records), now, cfg))
  {
    FoldIsOk(records);
    RetainedFolds(Fold(records), Allowed(Fold(records), now, cfg));
  }

  /** Compaction preserves meaning: an operation that it keeps folds to exactly what it folded to before, unless it
      carried both an acknowledgement and a reconciliation. */
  lemma CompactionPreservesMeaning(records: seq<Record>, now: int, cfg: Retention, id: OpId)
    requires Valid(records) && ItemOf(Compact(records, now, cfg), id).Some?
    ensures ItemOf(records, id).Some?
    ensures var item := ItemOf(records, id).value;
            ItemOf(Compact(records, now, cfg), id).value == item <==> !(item.acknowledged.Some? && item.reconciliation.Some?)
  {
    CompactFolds(records, now, cfg);
    SingleReadIsFoldAt(records, id);
    SingleReadIsFoldAt(Compact(records, now, cfg), id);
  }

  /** What compaction never drops: every operation without a result that is unresolved or not external. */
  lemma CompactionKeeps(records: seq<Record>, now: int, cfg: Retention, id: OpId)
    requires Valid(records) && ItemOf(records, id).Some? && ItemOf(records, id).value.result.None?
    requires !Resolved(ItemOf(records, id).value) || !IsExternal(ItemOf(records, id).value)
    ensures ItemOf(Compact(records, now, cfg), id).Some?
  {
    CompactFolds(records, now, cfg);
    SingleReadIsFoldAt(records, id);
    SingleReadIsFoldAt(Compact(records, now, cfg), id);
  }

  /** Pending, uncertain, unresolved external and unresolved workspace operations are the same before and after. */
  lemma CompactionKeepsCounts(records: seq<Record>, now: int, cfg: Retention)
    requires Valid(records)
    ensures var before, after := Fold(records), Fold(Compact(records, now, cfg));
            && Those(after, Pending) == Those(before, Pending)
            && Those(after, IsUncertain) == Those(before, IsUncertain)
            && Those(after, UnresolvedExternal) == Those(before, UnresolvedExternal)
            && Those(after, UnresolvedWorkspace) == Those(before, UnresolvedWorkspace)
  {
    CompactFolds(records, now, cfg);
  }

  // ----- The compacted journal is valid -----

  /** What validation establishes about a folded operation. */
  ghost predicate ItemValid(item: Item) {
    && Workspace(item) != Malformed
    && (Workspace(item).Held? && item.reconciliation.Some? && item.reconciliation.value.Reconciliation?
        ==> item.reconciliation.value.complete)
    && (Workspace(item).Held? && item.acknowledged.Some? && item.acknowledged.value.Acknowledged? ==> item.acknowledged.value.complete)
  }

  /** The bookkeeping of validation, read off the folded item. */
  ghost predicate Tracks(c: Check, item: Option<Item>, id: OpId) {
    && (id in c.known <==> item.Some?)
    && (id in c.workspace <==> item.Some? && Workspace(item.value).Held?)
    && (id in c.workspace ==> c.workspace[id] == Workspace(item.value))
    && (id in c.closed <==> item.Some? && Resolved(item.value))
    && (item.Some? ==> ItemValid(item.value))
  }

  lemma {:induction false} ValidationTracks(records: seq<Record>, id: OpId)
    requires Valid(records)
    ensures Tracks(CheckFrom(NothingChecked, records).value, ItemOf(records, id), id)
  {
    if records != [] {
      ValidationTracks(records[..|records| - 1], id);
      FoldedItemsOk(records[..|records| - 1], id);
    }
  }

  lemma {:induction false} CheckAppend(c: Check, a: seq<Record>, b: seq<Record>)
    requires CheckFrom(c, a).Some?
    ensures CheckFrom(c, a + b) == CheckFrom(CheckFrom(c, a).value, b)
    decreases |b|
  {
    if b == [] {
      assert a + b == a;
    } else {
      assert (a + b)[..|a + b| - 1] == a + b[..|b| - 1];
      CheckAppend(c, a, b[..|b| - 1]);
    }
  }

  ghost predicate CheckOk(c: Check) { c.workspace.Keys <= c.known && c.closed <= c.known }

  lemma CheckOne(c: Check, r: Record)
    ensures CheckFrom(c, [r]) == CheckRecord(c, r)
  {
    assert [r][..0] == [] && CheckFrom(c, []) == Some(c);
  }

  lemma CheckSlot(c: Check, slot: Option<Record>)
    ensures CheckFrom(c, Only(slot)) == if slot.Some? then CheckRecord(c, slot.value) else Some(c)
  {
    if slot.Some? { CheckOne(c, slot.value); }
  }

  lemma CheckKept(c: Check, item: Item, id: OpId)
    requires CheckOk(c) && id !in c.known && ItemOk(item, id) && ItemValid(item)
    ensures CheckFrom(c, KeptRecords(item)).Some?
    ensures CheckOk(CheckFrom(c, KeptRecords(item)).value) && CheckFrom(c, KeptRecords(item)).value.known == c.known + {id}
  {
    CheckOne(c, item.begin);
    var c1 := CheckRecord(c, item.begin).value;
    CheckSlot(c1, item.checkpoint);
    var c2 := CheckFrom(c1, Only(item.checkpoint)).value;
    CheckSlot(c2, item.uncertain);
    CheckSlot(c2, TerminalOf(item));
    CheckAppend(c, [item.begin], Only(item.checkpoint));
    CheckAppend(c, [item.begin] + Only(item.checkpoint), Only(item.uncertain));
    CheckAppend(c, [item.begin] + Only(item.checkpoint) + Only(item.uncertain), Only(TerminalOf(item)));
  }

  /** Validation accepted these records and knows exactly these operations. */
  ghost predicate Accepts(records: seq<Record>, order: seq<OpId>) {
    && Valid(records) && CheckOk(CheckFrom(NothingChecked, records).value)
    && forall id :: id in CheckFrom(NothingChecked, records).value.known <==> id in order
  }

  lemma AcceptsMore(records: seq<Record>, order: seq<OpId>, item: Item, id: OpId)
    requires Accepts(records, order) && id !in order && ItemOk(item, id) && ItemValid(item)
    ensures Accepts(records + KeptRecords(item), order + [id])
  {
    CheckKept(CheckFrom(NothingChecked, records).value, item, id);
    CheckAppend(NothingChecked, records, KeptRecords(item));
  }

  /** Step n of the order names a well-formed operation that did not come before. */
  ghost predicate OrderOk(items: map<OpId, Item>, order: seq<OpId>) {
    forall n :: 0 <= n < |order| ==>
      order[n] in items && ItemOk(items[order[n]], order[n]) && ItemValid(items[order[n]]) && order[n] !in order[..n]
  }

  lemma {:induction false} CheckRetained(items: map<OpId, Item>, order: seq<OpId>, n: nat)
    requires OrderOk(items, order) && n <= |order|
    ensures Accepts(Flatten(order[..n], ListingOf(items)), order[..n])
  {
    if n > 0 {
      var id := order[n - 1];
      CheckRetained(items, order, n - 1);
      AcceptsMore(Flatten(order[..n - 1], ListingOf(items)), order[..n - 1], items[id], id);
      assert order[..n] == order[..n - 1] + [id];
      FlattenOne(order[..n - 1], id, ListingOf(items));
    }
  }

  lemma CompactedIsValid(records: seq<Record>, now: int, cfg: Retention)
    requires Valid(records)
    ensures Valid(Compact(records, now, cfg))
  {
    var l := Fold(records);
    var allowed := Allowed(l, now, cfg);
    FoldIsOk(records);
    KeptOrderLists(l, allowed, |l.order|);
    assert l.order[..|l.order|] == l.order;
    forall id | id in l.items ensures ItemValid(l.items[id]) {
      SingleReadIsFoldAt(records, id);
      ValidationTracks(records, id);
    }
    var order := KeptOrder(l, allowed, |l.order|);
    forall n | 0 <= n < |order| ensures order[n] in l.items && order[n] !in order[..n] { assert order[n] in order; }
    CheckRetained(l.items, order, |order|);
    assert order[..|order|] == order;
  }

  // ----- Bounded history -----

  ghost predicate Sorted(cs: seq<Candidate>) { forall p, q :: 0 <= p < q < |cs| ==> OlderOrSame(cs[p], cs[q]) }

  lemma SortedExtends(cs: seq<Candidate>, last: Candidate)
    requires Sorted(cs) && forall c :: c in cs ==> OlderOrSame(c, last)
    ensures Sorted(cs + [last])
  {
  }

  lemma {:induction false} InsertSorts(c: Candidate, cs: seq<Candidate>)
    requires Sorted(cs)
    ensures Sorted(Insert(c, cs)) && multiset(Insert(c, cs)) == multiset(cs) + multiset{c}
  {
    if cs == [] || OlderOrSame(cs[|cs| - 1], c) {
      SortedExtends(cs, c);
    } else {
      var rest, last := cs[..|cs| - 1], cs[|cs| - 1];
      InsertSorts(c, rest);
      assert cs == rest + [last];
      forall d | d in Insert(c, rest) ensures OlderOrSame(d, last) {
        assert d in multiset(Insert(c, rest));
        assert d in rest || d == c;
      }
      SortedExtends(Insert(c, rest), last);
    }
  }

  lemma {:induction false} SortSorts(cs: seq<Candidate>)
    ensures Sorted(Sort(cs)) && multiset(Sort(cs)) == multiset(cs) && |Sort(cs)| == |cs|
  {
    if cs != [] {
      SortSorts(cs[..|cs| - 1]);
      InsertSorts(cs[|cs| - 1], Sort(cs[..|cs| - 1]));
      assert cs == cs[..|cs| - 1] + [cs[|cs| - 1]];
    }
    assert |multiset(Sort(cs))| == |multiset(cs)|;
  }

  /** The tail of a sorted sequence is not older than what comes before it. */
  lemma TailIsNewest(s: seq<Candidate>, k: nat, c: Candidate, d: Candidate)
    requires Sorted(s) && k <= |s| && c in s && c !in s[k..] && d in s[k..]
    ensures OlderOrSame(c, d)
  {
    var p :| 0 <= p < |s| && s[p] == c;
    var q :| 0 <= q < |s| - k && s[k..][q] == d;
    assert forall i :: k <= i < |s| ==> s[i] in s[k..];
    assert p < k;
  }

  /** The history that stays is bounded, comes from the candidates, and nothing dropped is newer than anything kept. */
  lemma NewestAreNewest(cs: seq<Candidate>, max: int)
    ensures |Newest(cs, max)| <= (if max > 0 then max else 0)
    ensures forall c :: c in Newest(cs, max) ==> c in cs
    ensures |cs| <= max ==> Newest(cs, max) == cs
    ensures forall c, d :: c in cs && c !in Newest(cs, max) && d in Newest(cs, max) ==> OlderOrSame(c, d)
  {
    SortSorts(cs);
    var s := Sort(cs);
    forall c ensures c in s <==> c in cs { assert c in multiset(s) <==> c in multiset(cs); }
    forall c, d | c in cs && c !in Newest(cs, max) && d in Newest(cs, max) ensures OlderOrSame(c, d) {
      if 0 < max < |cs| { TailIsNewest(s, |cs| - max, c, d); }
    }
  }

  lemma IdsGrow(cs: seq<Candidate>, c: Candidate)
    ensures Ids(cs + [c]) == Ids(cs) + {c.id}
  {
    forall id | id in Ids(cs) + {c.id} ensures id in Ids(cs + [c]) {
      if id in Ids(cs) {
        var k :| 0 <= k < |cs| && cs[k].id == id;
        assert (cs + [c])[k].id == id;
      } else {
        assert (cs + [c])[|cs|].id == id;
      }
    }
  }

  lemma {:induction false} CandidateIds(l: Ledger, now: int, cfg: Retention, n: nat, id: OpId)
    requires n <= |l.order|
    ensures id in Ids(Candidates(l, now, cfg, n)) <==> id in l.order[..n] && Qualifies(l, now, cfg, id)
  {
    if n > 0 {
      var who := l.order[n - 1];
      CandidateIds(l, now, cfg, n - 1, id);
      assert l.order[..n] == l.order[..n - 1] + [who];
      if Qualifies(l, now, cfg, who) { IdsGrow(Candidates(l, now, cfg, n - 1), Candidate(SortKey(l.items[who]), n - 1, who)); }
    }
  }

  lemma {:induction false} CandidateCount(l: Ledger, now: int, cfg: Retention, n: nat)
    requires n <= |l.order| && forall p, q :: 0 <= p < q < |l.order| ==> l.order[p] != l.order[q]
    ensures |Candidates(l, now, cfg, n)| == |Ids(Candidates(l, now, cfg, n))|
  {
    if n > 0 {
      var who := l.order[n - 1];
      CandidateCount(l, now, cfg, n - 1);
      CandidateIds(l, now, cfg, n - 1, who);
      if Qualifies(l, now, cfg, who) { IdsGrow(Candidates(l, now, cfg, n - 1), Candidate(SortKey(l.items[who]), n - 1, who)); }
    }
  }

  lemma CandidatesAre(l: Ledger, now: int, cfg: Retention, n: nat)
    requires Listed(l) && n <= |l.order|
    ensures forall id :: id in Ids(Candidates(l, now, cfg, n)) <==> id in l.order[..n] && Qualifies(l, now, cfg, id)
    ensures |Candidates(l, now, cfg, n)| == |Ids(Candidates(l, now, cfg, n))|
  {
    CandidateCount(l, now, cfg, n);
    forall id ensures id in Ids(Candidates(l, now, cfg, n)) <==> id in l.order[..n] && Qualifies(l, now, cfg, id) {
      CandidateIds(l, now, cfg, n, id);
    }
  }

  lemma {:induction false} IdsCount(cs: seq<Candidate>)
    ensures |Ids(cs)| <= |cs|
  {
    if cs != [] {
      var rest := cs[..|cs| - 1];
      IdsCount(rest);
      assert Ids(cs) <= Ids(rest) + {cs[|cs| - 1].id};
      Subset(Ids(cs), Ids(rest) + {cs[|cs| - 1].id});
    }
  }

  /** At most `maxHistory` resolved external operations stay. */
  lemma HistoryIsBounded(l: Ledger, now: int, cfg: Retention)
    requires Listed(l)
    ensures |Allowed(l, now, cfg)| <= (if cfg.maxHistory > 0 then cfg.maxHistory else 0)
    ensures forall id :: id in Allowed(l, now, cfg) ==> Qualifies(l, now, cfg, id)
  {
    var cs := Candidates(l, now, cfg, |l.order|);
    NewestAreNewest(cs, cfg.maxHistory);
    IdsCount(Newest(cs, cfg.maxHistory));
    CandidatesAre(l, now, cfg, |l.order|);
    assert l.order[..|l.order|] == l.order;
    forall id | id in Allowed(l, now, cfg) ensures id in Ids(cs) {
      var k :| 0 <= k < |Newest(cs, cfg.maxHistory)| && Newest(cs, cfg.maxHistory)[k].id == id;
      assert Newest(cs, cfg.maxHistory)[k] in cs;
    }
  }

  // ----- Compacting again -----

  /** A second compaction at the same time keeps everything the first one kept. */
  lemma AllStay(l: Ledger, now: int, cfg: Retention, id: OpId)
    requires Listed(l)
    requires var k := KeptLedger(l, Allowed(l, now, cfg)); Listed(k) && id in k.items
    ensures var k := KeptLedger(l, Allowed(l, now, cfg)); Stays(k.items[id], id, Allowed(k, now, cfg))
  {
    var allowed := Allowed(l, now, cfg);
    var k := KeptLedger(l, allowed);
    var cs := Candidates(k, now, cfg, |k.order|);
    HistoryIsBounded(l, now, cfg);
    CandidatesAre(k, now, cfg, |k.order|);
    assert k.order[..|k.order|] == k.order;
    forall x | x in Ids(cs) ensures x in allowed { assert Bounded(l.items[x]); }
    Subset(Ids(cs), allowed);
    NewestAreNewest(cs, cfg.maxHistory);
    if Bounded(k.items[id]) {
      assert id in allowed && Bounded(l.items[id]);
      assert id in k.order && id in Ids(cs);
    }
  }

  lemma {:induction false} OrderStays(l: Ledger, allowed: set<OpId>, n: nat)
    requires n <= |l.order| && Listed(l) && forall id :: id in l.items ==> Stays(l.items[id], id, allowed)
    ensures KeptOrder(l, allowed, n) == l.order[..n]
  {
    if n > 0 {
      OrderStays(l, allowed, n - 1);
      assert l.order[n - 1] in l.order;
    }
  }

  lemma RetainedAgain(l: Ledger, now: int, cfg: Retention)
    requires Listed(l) && Listed(KeptLedger(l, Allowed(l, now, cfg)))
    ensures var k := KeptLedger(l, Allowed(l, now, cfg)); Retained(k, Allowed(k, now, cfg)) == Retained(l, Allowed(l, now, cfg))
  {
    var k := KeptLedger(l, Allowed(l, now, cfg));
    forall id | id in k.items ensures Stays(k.items[id], id, Allowed(k, now, cfg)) { AllStay(l, now, cfg, id); }
    OrderStays(k, Allowed(k, now, cfg), |k.order|);
    assert k.order[..|k.order|] == k.order;
    SameListing(l, Allowed(l, now, cfg));
  }

  lemma SameListing(l: Ledger, allowed: set<OpId>)
    requires Listed(KeptLedger(l, allowed))
    ensures Flatten(KeptLedger(l, allowed).order, ListingOf(KeptItems(l, allowed)))
         == Flatten(KeptLedger(l, allowed).order, ListingOf(l.items))
  {
    FlattenAgrees(KeptLedger(l, allowed).order, ListingOf(KeptItems(l, allowed)), ListingOf(l.items));
  }

  /** Compacting again at the same time is the identity. */
  lemma CompactionIsIdempotent(records: seq<Record>, now: int, cfg: Retention)
    ensures Compact(Compact(records, now, cfg), now, cfg) == Compact(records, now, cfg)
  {
    if Valid(records) {
      CompactedIsValid(records, now, cfg);
      CompactFolds(records, now, cfg);
      FoldIsListed(records);
      FoldIsListed(Compact(records, now, cfg));
      RetainedAgain(Fold(records), now, cfg);
    }
  }
}
