/** The rotating audit log of core/audit.py: batched appends over numbered files, against an append-only list of records. */
module AuditLog {
  import opened Prelude

  type Payload = seq<Byte>

  datatype Policy = Policy(maxBytes: nat, keepFiles: nat)

  /** The live file and the rotated ones, the newest rotation at index 1. */
  datatype Files = Files(current: seq<Byte>, rotated: map<nat, seq<Byte>>)

  const NoFiles: Files := Files([], map[])

  function Join(records: seq<Payload>): seq<Byte> {
    if records == [] then [] else Join(records[..|records| - 1]) + records[|records| - 1]
  }

  // ----- One record at a time -----

  /** Every rotation moves up by one, the live file becomes number 1, what moves past `keepFiles` is gone. */
  function Rotated(f: Files, policy: Policy): Files {
    Files([], map i | i in IndexesUpTo(policy.keepFiles) && (i == 1 || i - 1 in f.rotated) ::
                if i == 1 then f.current else f.rotated[i - 1])
  }

  function IndexesUpTo(n: nat): (r: set<nat>)
    ensures forall i :: i in r <==> 1 <= i <= n
  {
    if n == 0 then {} else IndexesUpTo(n - 1) + {n}
  }

  predicate Overflows(size: nat, incoming: nat, policy: Policy) { size > 0 && size + incoming > policy.maxBytes }

  function AppendOne(f: Files, p: Payload, policy: Policy): Files {
    var g := if Overflows(|f.current|, |p|, policy) then Rotated(f, policy) else f;
    g.(current := g.current + p)
  }

  function AppendAll(f: Files, payloads: seq<Payload>, policy: Policy): Files {
    if payloads == [] then f
    else AppendOne(AppendAll(f, payloads[..|payloads| - 1], policy), payloads[|payloads| - 1], policy)
  }

  // ----- What the files hold -----

  /** The history cut into segments: a record starts a new one when it does not fit behind what is there. */
  function Segments(history: seq<Payload>, policy: Policy): (segs: seq<seq<Payload>>)
    ensures segs != []
  {
    if history == [] then [[]]
    else
      var p := history[|history| - 1];
      var before := Segments(history[..|history| - 1], policy);
      var last := before[|before| - 1];
      if Overflows(|Join(last)|, |p|, policy) then before + [[p]]
      else before[..|before| - 1] + [last + [p]]
  }

  function Concat(segs: seq<seq<Payload>>): seq<Payload> {
    if segs == [] then [] else Concat(segs[..|segs| - 1]) + segs[|segs| - 1]
  }

  /** The files as they should be: the last segment live, the ones before it rotated, at most `keepFiles` of them. */
  ghost function Layout(segs: seq<seq<Payload>>, policy: Policy): Files
    requires segs != []
  {
    Files(Join(segs[|segs| - 1]), map i | i in IndexesUpTo(policy.keepFiles) && i < |segs| :: Nth(segs, i))
  }

  /** The bytes of the i-th newest segment. */
  ghost function Nth(segs: seq<seq<Payload>>, i: nat): seq<Byte>
    requires i < |segs|
  {
    Join(segs[|segs| - 1 - i])
  }

  lemma JoinOne(records: seq<Payload>, p: Payload)
    ensures Join(records + [p]) == Join(records) + p
  {
    assert (records + [p])[..|records|] == records;
  }

  /** The files of any history are the newest segments of it, each file whole records in order. */
  lemma {:induction false} FilesAreNewestSegments(history: seq<Payload>, policy: Policy)
    ensures AppendAll(NoFiles, history, policy) == Layout(Segments(history, policy), policy)
  {
    if history == [] {
      assert Layout([[]], policy).rotated == map[];
    } else {
      var before, p := history[..|history| - 1], history[|history| - 1];
      FilesAreNewestSegments(before, policy);
      var segs := Segments(before, policy);
      var last := segs[|segs| - 1];
      if Overflows(|Join(last)|, |p|, policy) {
        LayoutRotates(segs, p, policy);
      } else {
        JoinOne(last, p);
        LayoutExtends(segs, last + [p], policy);
      }
    }
  }

  lemma NthShifts(segs: seq<seq<Payload>>, p: Payload, i: nat)
    requires 1 <= i <= |segs|
    ensures Nth(segs + [[p]], i) == Nth(segs, i - 1)
  {
  }

  lemma NewestFile(segs: seq<seq<Payload>>, p: Payload)
    ensures Nth(segs + [[p]], 0) == p
  {
    JoinOne([], p);
    assert [] + [p] == [p];
  }

  lemma LayoutRotates(segs: seq<seq<Payload>>, p: Payload, policy: Policy)
    requires segs != []
    ensures Layout(segs + [[p]], policy) == Rotated(Layout(segs, policy), policy).(current := p)
  {
    NewestFile(segs, p);
    var a, b := Layout(segs + [[p]], policy).rotated, Rotated(Layout(segs, policy), policy).rotated;
    forall i: nat ensures (i in a <==> i in b) && (i in a ==> a[i] == b[i]) {
      if i in a { NthShifts(segs, p, i); }
    }
    assert a == b;
  }

  lemma LayoutExtends(segs: seq<seq<Payload>>, last: seq<Payload>, policy: Policy)
    requires segs != []
    ensures Layout(segs[..|segs| - 1] + [last], policy) == Layout(segs, policy).(current := Join(last))
  {
    var a, b := Layout(segs[..|segs| - 1] + [last], policy).rotated, Layout(segs, policy).rotated;
    forall i: nat ensures (i in a <==> i in b) && (i in a ==> a[i] == b[i]) { }
    assert a == b;
  }

  /** The segments are the history, no more and no less. */
  lemma {:induction false} SegmentsAreTheHistory(history: seq<Payload>, policy: Policy)
    ensures Concat(Segments(history, policy)) == history
  {
    if history == [] {
      assert Concat([]) == [] && Concat([[]]) == Concat([[]][..0]) + [];
    } else {
      var before, p := history[..|history| - 1], history[|history| - 1];
      SegmentsAreTheHistory(before, policy);
      var segs := Segments(before, policy);
      var last := segs[|segs| - 1];
      var cut := segs[..|segs| - 1];
      assert (segs + [[p]])[..|segs|] == segs && (cut + [last + [p]])[..|cut|] == cut;
      assert history == before + [p];
    }
  }

  /** A segment stays within the limit unless everything but its last record is empty. */
  ghost predicate Bounded(seg: seq<Payload>, policy: Policy) {
    |Join(seg)| <= policy.maxBytes || (seg != [] && Join(seg[..|seg| - 1]) == [])
  }

  lemma {:induction false} SegmentsAreBounded(history: seq<Payload>, policy: Policy)
    ensures forall k :: 0 <= k < |Segments(history, policy)| ==> Bounded(Segments(history, policy)[k], policy)
  {
    if history != [] {
      var before, p := history[..|history| - 1], history[|history| - 1];
      SegmentsAreBounded(before, policy);
      var segs := Segments(before, policy);
      var last := segs[|segs| - 1];
      JoinOne(last, p);
      assert (last + [p])[..|last|] == last;
      var one: seq<Payload> := [p];
      assert one[..0] == [];
    }
  }

  lemma {:induction false} ConcatSplits(segs: seq<seq<Payload>>, k: nat)
    requires k <= |segs|
    ensures Concat(segs) == Concat(segs[..k]) + Concat(segs[k..])
    decreases |segs|
  {
    if k == |segs| {
      assert segs[..k] == segs && segs[k..] == [];
    } else {
      var cut := segs[..|segs| - 1];
      ConcatSplits(cut, k);
      assert cut[..k] == segs[..k] && segs[k..][..|segs| - k - 1] == cut[k..];
    }
  }

  lemma {:induction false} JoinAppend(a: seq<Payload>, b: seq<Payload>)
    ensures Join(a + b) == Join(a) + Join(b)
    decreases |b|
  {
    if b == [] {
      assert a + b == a;
    } else {
      JoinAppend(a, b[..|b| - 1]);
      assert (a + b)[..|a + b| - 1] == a + b[..|b| - 1];
    }
  }

  /** The bytes of the n newest rotations, oldest first, and of the live file. */
  function Contents(f: Files, n: nat): seq<Byte> {
    if n == 0 then f.current else (if n in f.rotated then f.rotated[n] else []) + Contents(f, n - 1)
  }

  lemma OldestFirst(segs: seq<seq<Payload>>, k: nat)
    requires k < |segs|
    ensures Join(Concat(segs[k..])) == Join(segs[k]) + Join(Concat(segs[k + 1..]))
  {
    var tail := segs[k..];
    ConcatSplits(tail, 1);
    assert tail[1..] == segs[k + 1..];
    var first := [tail[0]];
    assert tail[..1] == first && first[..0] == [] && Concat(first) == tail[0];
    JoinAppend(tail[0], Concat(tail[1..]));
  }

  lemma NthFile(segs: seq<seq<Payload>>, policy: Policy, n: nat)
    requires 1 <= n < |segs| && n <= policy.keepFiles
    ensures n in Layout(segs, policy).rotated && Layout(segs, policy).rotated[n] == Join(segs[|segs| - 1 - n])
  {
  }

  /** The newest files read in order are the records of the newest segments. */
  lemma {:induction false} ContentsAreSegments(segs: seq<seq<Payload>>, policy: Policy, n: nat)
    requires n < |segs| && n <= policy.keepFiles
    ensures Contents(Layout(segs, policy), n) == Join(Concat(segs[|segs| - 1 - n..]))
  {
    OldestFirst(segs, |segs| - 1 - n);
    if n == 0 {
      assert segs[|segs|..] == [];
    } else {
      NthFile(segs, policy, n);
      ContentsAreSegments(segs, policy, n - 1);
    }
  }

  /** How many segments the retention has dropped. */
  function Dropped(segs: seq<seq<Payload>>, policy: Policy): (d: nat)
    ensures segs != [] ==> d < |segs|
  {
    if |segs| > policy.keepFiles + 1 then |segs| - policy.keepFiles - 1 else 0
  }

  /** What is retained is a record-aligned suffix of the full history: the rotated files from the oldest to the newest,
      then the live file, hold exactly the bytes of the records after some first ones, in order. */
  lemma RetainedIsASuffix(history: seq<Payload>, policy: Policy)
    ensures var segs := Segments(history, policy);
            var gone := Concat(segs[..Dropped(segs, policy)]);
            var files := AppendAll(NoFiles, history, policy);
            && files.rotated.Keys == IndexesUpTo(|files.rotated|)
            && |files.rotated| == |segs| - 1 - Dropped(segs, policy)
            && gone <= history
            && Contents(files, |files.rotated|) == Join(history[|gone|..])
  {
    var segs := Segments(history, policy);
    FilesAreNewestSegments(history, policy);
    FileNumbers(segs, policy);
    ContentsAreSegments(segs, policy, |segs| - 1 - Dropped(segs, policy));
    HistorySplits(history, policy, Dropped(segs, policy));
  }

  lemma FileNumbers(segs: seq<seq<Payload>>, policy: Policy)
    requires segs != []
    ensures |Layout(segs, policy).rotated| == |segs| - 1 - Dropped(segs, policy)
    ensures Layout(segs, policy).rotated.Keys == IndexesUpTo(|segs| - 1 - Dropped(segs, policy))
  {
    var rotated := Layout(segs, policy).rotated;
    IndexCount(|segs| - 1 - Dropped(segs, policy));
    assert rotated.Keys == IndexesUpTo(|segs| - 1 - Dropped(segs, policy));
    assert |rotated| == |rotated.Keys|;
  }

  lemma HistorySplits(history: seq<Payload>, policy: Policy, d: nat)
    requires d <= |Segments(history, policy)|
    ensures var segs := Segments(history, policy); Concat(segs[..d]) <= history && history[|Concat(segs[..d])|..] == Concat(segs[d..])
  {
    SegmentsAreTheHistory(history, policy);
    ConcatSplits(Segments(history, policy), d);
  }

  lemma {:induction false} IndexCount(n: nat)
    ensures |IndexesUpTo(n)| == n
  {
    if n > 0 { IndexCount(n - 1); }
  }

  // ----- The object -----

  /** File i was before file i - 1 for i above `index`; the others have not moved yet. */
  ghost predicate ShiftedAbove(before: map<nat, seq<Byte>>, after: map<nat, seq<Byte>>, index: nat, keep: nat) {
    && (forall i: nat :: i <= index ==> (i in after <==> i in before))
    && (forall i: nat :: i <= index && i in after ==> after[i] == before[i])
    && (index + 1 !in after) && (forall i: nat :: i in after ==> i <= keep)
    && (forall i: nat :: index < i < keep ==> (i + 1 in after <==> i in before))
    && (forall i: nat :: index < i < keep && i in before ==> i + 1 in after && after[i + 1] == before[i])
  }

  method ShiftFiles(before: map<nat, seq<Byte>>, keep: nat) returns (after: map<nat, seq<Byte>>)
    requires 0 !in before && forall i :: i in before ==> i <= keep
    ensures 0 !in after && 1 !in after && forall i :: i in after ==> i <= keep
    ensures forall i: nat :: i < keep ==> (i + 1 in after <==> i in before)
    ensures forall i: nat :: i < keep && i in before ==> i + 1 in after && after[i + 1] == before[i]
  {
    after := before - {keep};
    if keep == 0 { return; }
    var index: nat := keep - 1;
    while index > 0
      invariant index < keep && ShiftedAbove(before, after, index, keep)
    {
      if index in after { after := after[index + 1 := after[index]] - {index}; }
      index := index - 1;
    }
  }

  class AuditFiles {
    const policy: Policy
    var current: seq<Byte>
    var rotated: map<nat, seq<Byte>>

    function View(): Files
      reads this
    {
      Files(current, rotated)
    }

    constructor (policy: Policy)
      ensures View() == NoFiles && this.policy == policy
    {
      this.policy := policy;
      current, rotated := [], map[];
    }

    /** `_rotate_locked`: shift the numbered files from the oldest down, then the live one. */
    method Rotate(incoming: nat)
      requires 0 !in rotated && (forall i :: i in rotated ==> i <= policy.keepFiles)
      modifies this
      ensures 0 !in rotated && (forall i :: i in rotated ==> i <= policy.keepFiles)
      ensures View() == if Overflows(|old(current)|, incoming, policy) then Rotated(old(View()), policy) else old(View())
    {
      if |current| == 0 || |current| + incoming <= policy.maxBytes { return; }
      rotated := ShiftFiles(rotated, policy.keepFiles);
      rotated := rotated[1 := current];
      current := [];
      rotated := map i | i in rotated && i <= policy.keepFiles :: rotated[i];
      assert rotated.Keys == Rotated(old(View()), policy).rotated.Keys;
    }

    /** `_append_payloads` without faults: records gather in `pending` and are written together, but never past a rotation. */
    method AppendPayloads(payloads: seq<Payload>)
      requires 0 !in rotated && (forall i :: i in rotated ==> i <= policy.keepFiles)
      modifies this
      ensures 0 !in rotated && (forall i :: i in rotated ==> i <= policy.keepFiles)
      ensures View() == AppendAll(old(View()), payloads, policy)
    {
      var pending: seq<Payload> := [];
      var currentSize, pendingBytes := |current|, 0;
      ghost var start := View();
      for n := 0 to |payloads|
        invariant 0 !in rotated && (forall i :: i in rotated ==> i <= policy.keepFiles)
        invariant currentSize == |current| && pendingBytes == |Join(pending)|
        invariant Files(current + Join(pending), rotated) == AppendAll(start, payloads[..n], policy)
      {
        var payload := payloads[n];
        assert payloads[..n + 1][..n] == payloads[..n];
        var effective := currentSize + pendingBytes;
        if effective > 0 && effective + |payload| > policy.maxBytes {
          current := current + Join(pending);
          pending, pendingBytes := [], 0;
          Rotate(|payload|);
          currentSize := |current|;
        }
        JoinOne(pending, payload);
        pending, pendingBytes := pending + [payload], pendingBytes + |payload|;
      }
      current := current + Join(pending);
      assert payloads[..|payloads|] == payloads;
    }
  }
}
