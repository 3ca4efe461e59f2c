/** `workflow_topological_order` (core/workflow_models.py): definition checks and the stable topological order. */
module TopologicalOrder {
  import opened Prelude
  import opened WorkflowSystem

  type Graph = seq<set<nat>>

  /** Dependencies name steps of the same graph. */
  ghost predicate Closed(deps: Graph) {
    forall i :: 0 <= i < |deps| ==> forall d :: d in deps[i] ==> d < |deps|
  }

  // ----- Orders and cycles -----

  ghost function Elements(s: seq<nat>): set<nat> { set i | 0 <= i < |s| :: s[i] }

  /** The step numbers below n. */
  ghost function Steps(n: nat): (r: set<nat>)
    ensures |r| == n && forall i :: i in r <==> 0 <= i < n
  {
    if n == 0 then {} else Steps(n - 1) + {n - 1}
  }

  ghost predicate Distinct(s: seq<nat>) { forall p, q :: 0 <= p < q < |s| ==> s[p] != s[q] }

  /** Step i may come next after the steps of `done`. */
  ghost predicate Available(deps: Graph, done: seq<nat>, i: nat) {
    i < |deps| && i !in done && forall d :: d in deps[i] ==> d in done
  }

  /** Every step of `order` comes once, after all its dependencies. */
  ghost predicate Legal(deps: Graph, order: seq<nat>) {
    forall p :: 0 <= p < |order| ==> Available(deps, order[..p], order[p])
  }

  /** A permutation of the steps in which every dependency precedes its dependents. */
  ghost predicate Topological(deps: Graph, order: seq<nat>) {
    Legal(deps, order) && Elements(order) == Steps(|deps|)
  }

  ghost predicate LexAtMost(a: seq<nat>, b: seq<nat>) {
    a == b || exists k :: 0 <= k < |a| && k < |b| && a[..k] == b[..k] && a[k] < b[k]
  }

  /** A walk along dependencies. */
  ghost predicate Chain(deps: Graph, c: seq<nat>) {
    && c != [] && (forall k :: 0 <= k < |c| ==> c[k] < |deps|)
    && (forall k, j :: 0 <= k < |c| && j == k + 1 && j < |c| ==> c[j] in deps[c[k]])
  }

  /** A walk whose last step depends on its first. */
  ghost predicate Cycle(deps: Graph, c: seq<nat>) {
    Chain(deps, c) && c[0] in deps[c[|c| - 1]]
  }

  ghost predicate HasCycle(deps: Graph) { exists c :: Cycle(deps, c) }

  // ----- The greedy order -----

  /** The least step at or after `from` that may come next, or |deps| when there is none. */
  ghost function NextAvailable(deps: Graph, done: seq<nat>, from: nat): (i: nat)
    requires from <= |deps|
    ensures from <= i <= |deps|
    ensures i < |deps| ==> Available(deps, done, i)
    ensures forall j :: from <= j < i ==> !Available(deps, done, j)
    decreases |deps| - from
  {
    if from == |deps| || Available(deps, done, from) then from else NextAvailable(deps, done, from + 1)
  }

  /** Extend `done` with the least available step for as long as there is one. */
  ghost function Greedy(deps: Graph, done: seq<nat>): (order: seq<nat>)
    decreases |deps| - |done|
  {
    var i := NextAvailable(deps, done, 0);
    if i == |deps| || |done| >= |deps| then done else Greedy(deps, done + [i])
  }

  lemma LegalExtends(deps: Graph, order: seq<nat>, i: nat)
    requires Legal(deps, order) && Available(deps, order, i)
    ensures Legal(deps, order + [i])
  {
    var next := order + [i];
    forall p | 0 <= p < |next| ensures Available(deps, next[..p], next[p]) {
      assert next[..p] == order[..p];
      if p == |order| { assert order[..p] == order; }
    }
  }

  lemma LegalIsDistinct(deps: Graph, order: seq<nat>)
    requires Legal(deps, order)
    ensures Distinct(order)
  {
    forall p, q | 0 <= p < q < |order| ensures order[p] != order[q] {
      assert Available(deps, order[..q], order[q]) && order[..q][p] == order[p];
    }
  }

  lemma {:induction false} DistinctCount(s: seq<nat>, n: nat)
    requires Distinct(s) && forall p :: 0 <= p < |s| ==> s[p] < n
    ensures |Elements(s)| == |s| <= n
    ensures |s| == n ==> Elements(s) == Steps(n)
  {
    CountElements(s);
    Subset(Elements(s), Steps(n));
  }

  lemma {:induction false} CountElements(s: seq<nat>)
    requires Distinct(s)
    ensures |Elements(s)| == |s|
  {
    if s != [] {
      var t := s[..|s| - 1];
      CountElements(t);
      assert s == t + [s[|s| - 1]] && Elements(s) == Elements(t) + {s[|s| - 1]};
    }
  }

  lemma LegalCount(deps: Graph, order: seq<nat>)
    requires Legal(deps, order)
    ensures |order| <= |deps| && Distinct(order) && (|order| == |deps| <==> Topological(deps, order))
  {
    LegalIsDistinct(deps, order);
    forall p | 0 <= p < |order| ensures order[p] < |deps| { assert Available(deps, order[..p], order[p]); }
    DistinctCount(order, |deps|);
  }

  /** Greedy extension stays legal and stops only when nothing is available. */
  lemma {:induction false} GreedyIsMaximal(deps: Graph, done: seq<nat>)
    requires Legal(deps, done)
    ensures Legal(deps, Greedy(deps, done)) && done <= Greedy(deps, done)
    ensures forall i: nat :: !Available(deps, Greedy(deps, done), i)
    decreases |deps| - |done|
  {
    LegalCount(deps, done);
    var i := NextAvailable(deps, done, 0);
    if |done| == |deps| {
      forall k: nat ensures !Available(deps, done, k) { assert k in Steps(|deps|) ==> k in Elements(done); }
    } else if i < |deps| {
      LegalExtends(deps, done, i);
      GreedyIsMaximal(deps, done + [i]);
    }
  }

  /** No topological order that agrees with `done` is lexicographically smaller. */
  lemma {:induction false} GreedyIsLeast(deps: Graph, done: seq<nat>, other: seq<nat>)
    requires Legal(deps, done) && Topological(deps, other) && done <= other
    ensures LexAtMost(Greedy(deps, done), other)
    decreases |deps| - |done|
  {
    LegalCount(deps, other);
    LegalCount(deps, done);
    if |done| < |deps| {
      var n := |done|;
      assert other[..n] == done && Available(deps, done, other[n]);
      var i := NextAvailable(deps, done, 0);
      assert i <= other[n];
      LegalExtends(deps, done, i);
      var g := Greedy(deps, done);
      if i == other[n] {
        GreedyIsLeast(deps, done + [i], other);
      } else {
        GreedyIsMaximal(deps, done + [i]);
        assert g[..n] == other[..n] && g[n] == i;
      }
    }
  }

  // ----- A cycle is the only obstacle -----

  /** In a topological order positions decrease along dependencies, so no walk closes. */
  lemma {:induction false} WalkDescends(deps: Graph, order: seq<nat>, c: seq<nat>, k: nat, p: nat) returns (q: nat)
    requires Topological(deps, order) && Chain(deps, c) && k < |c| && p < |order| && order[p] == c[0]
    ensures q <= p && order[q] == c[k]
  {
    if k == 0 {
      q := p;
    } else {
      var q' := WalkDescends(deps, order, c, k - 1, p);
      q := StepDescends(deps, order, q', c[k]);
    }
  }

  lemma StepDescends(deps: Graph, order: seq<nat>, p: nat, d: nat) returns (q: nat)
    requires Topological(deps, order) && p < |order| && order[p] < |deps| && d in deps[order[p]]
    ensures q < p && order[q] == d
  {
    assert Available(deps, order[..p], order[p]);
    assert d in order[..p];
    q :| 0 <= q < p && order[..p][q] == d;
  }

  lemma OrderedHasNoCycle(deps: Graph, order: seq<nat>, c: seq<nat>)
    requires Topological(deps, order)
    ensures !Cycle(deps, c)
  {
    if Chain(deps, c) {
      assert c[0] in Elements(order);
      var p :| 0 <= p < |order| && order[p] == c[0];
      var q := WalkDescends(deps, order, c, |c| - 1, p);
      LegalIsDistinct(deps, order);
      assert Available(deps, order[..q], order[q]) && c[0] !in order[..q];
    }
  }

  /** A simple walk through steps that are not in `done`. */
  ghost predicate Walk(deps: Graph, done: seq<nat>, path: seq<nat>) {
    Chain(deps, path) && Distinct(path) && forall k :: 0 <= k < |path| ==> path[k] !in done
  }

  /** With nothing available every missing step waits for a missing step: the walk runs into itself. */
  lemma {:induction false} StuckHasCycle(deps: Graph, done: seq<nat>, path: seq<nat>) returns (c: seq<nat>)
    requires Closed(deps) && Walk(deps, done, path)
    requires forall i: nat :: !Available(deps, done, i)
    ensures Cycle(deps, c)
    decreases |deps| - |path|
  {
    DistinctCount(path, |deps|);
    var last := path[|path| - 1];
    assert !Available(deps, done, last);
    var d :| d in deps[last] && d !in done;
    if d in path {
      var k :| 0 <= k < |path| && path[k] == d;
      c := path[k..];
    } else {
      assert d in Steps(|deps|) && d !in Elements(path);
      c := StuckHasCycle(deps, done, path + [d]);
    }
  }

  /** The greedy order is complete exactly when the graph has no cycle. */
  lemma CompleteIffAcyclic(deps: Graph)
    requires Closed(deps)
    ensures |Greedy(deps, [])| == |deps| <==> !HasCycle(deps)
    ensures |Greedy(deps, [])| == |deps| <==> Topological(deps, Greedy(deps, []))
  {
    var g := Greedy(deps, []);
    GreedyIsMaximal(deps, []);
    LegalCount(deps, g);
    if |g| == |deps| {
      forall c ensures !Cycle(deps, c) { OrderedHasNoCycle(deps, g, c); }
    } else {
      var i := MissingStep(deps, g);
      var c := StuckHasCycle(deps, g, [i]);
    }
  }

  lemma MissingStep(deps: Graph, order: seq<nat>) returns (i: nat)
    requires Legal(deps, order) && |order| < |deps|
    ensures i < |deps| && i !in order
  {
    LegalCount(deps, order);
    i :| i in Steps(|deps|) && i !in Elements(order);
  }

  /** The rank condition under which workflows are created is exactly the absence of a dependency cycle. */
  lemma AcyclicMeansNoCycle(deps: Graph)
    requires Closed(deps)
    ensures Acyclic(deps) <==> !HasCycle(deps)
  {
    CompleteIffAcyclic(deps);
    if Acyclic(deps) {
      var rank :| Ranks(rank, deps);
      forall c ensures !Cycle(deps, c) { if Chain(deps, c) { RanksDescend(deps, rank, c, |c| - 1); } }
    }
    if !HasCycle(deps) {
      var order := Greedy(deps, []);
      var rank := seq(|deps|, i requires 0 <= i < |deps| => Position(order, i));
      forall i | 0 <= i < |deps| ensures forall d :: d in deps[i] ==> d < |deps| && rank[d] < rank[i] {
        forall d | d in deps[i] ensures d < |deps| && rank[d] < rank[i] { PositionsAscend(deps, order, i, d); }
      }
      assert Ranks(rank, deps);
    }
  }

  /** Where i stands in the order; its length when absent. */
  ghost function Position(order: seq<nat>, i: nat): (p: nat)
    ensures p <= |order| && (p < |order| <==> i in order) && (p < |order| ==> order[p] == i)
    ensures forall q :: 0 <= q < p ==> order[q] != i
  {
    if order == [] then 0 else if order[0] == i then 0 else 1 + Position(order[1..], i)
  }

  lemma PositionsAscend(deps: Graph, order: seq<nat>, i: nat, d: nat)
    requires Closed(deps) && Topological(deps, order) && i < |deps| && d in deps[i]
    ensures Position(order, d) < Position(order, i)
  {
    assert i in Elements(order);
    var q := StepDescends(deps, order, Position(order, i), d);
  }

  lemma {:induction false} RanksDescend(deps: Graph, rank: seq<nat>, c: seq<nat>, k: nat)
    requires Ranks(rank, deps) && Chain(deps, c) && k < |c|
    ensures rank[c[k]] <= rank[c[0]]
  {
    if k > 0 { RanksDescend(deps, rank, c, k - 1); }
  }
}
