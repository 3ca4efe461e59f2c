/** Claim algebra of core/resource_claims.py: overlap, conflict and cover of read/write, exact/subtree claims. */
module ResourceClaims {

  datatype Mode = Read | Write
  datatype Scope = Exact | Subtree
  datatype Claim = Claim(kind: string, key: string, mode: Mode, scope: Scope)

  /** Kinds whose keys are canonical file paths. */
  predicate PathKind(kind: string) {
    kind in {"fs", "git", "cache", "cwd"}
  }

  predicate Separator(c: char) { c == '/' || c == '\\' }

  /** The non-empty components of a key, split at either slash. */
  function Parts(key: string): (r: seq<string>)
    ensures forall p :: p in r ==> p != ""
  {
    PartsFrom(key, "")
  }

  function PartsFrom(key: string, word: string): (r: seq<string>)
    ensures forall p :: p in r ==> p != ""
  {
    if key == "" then (if word == "" then [] else [word])
    else if Separator(key[0]) then
      (if word == "" then [] else [word]) + PartsFrom(key[1..], "")
    else PartsFrom(key[1..], word + [key[0]])
  }

  predicate Comparable(a: seq<string>, b: seq<string>) { a <= b || b <= a }

  predicate ExactMatch(kind: string, a: string, b: string) {
    if PathKind(kind) then Parts(a) == Parts(b) else a == b
  }

  predicate Overlap(a: Claim, b: Claim) {
    a.kind == b.kind &&
    match (a.scope, b.scope)
    case (Exact, Exact) => ExactMatch(a.kind, a.key, b.key)
    case (Subtree, Subtree) => Comparable(Parts(a.key), Parts(b.key))
    case (Subtree, Exact) => Parts(a.key) <= Parts(b.key)
    case (Exact, Subtree) => Parts(b.key) <= Parts(a.key)
  }

  predicate Conflict(a: Claim, b: Claim) {
    Overlap(a, b) && (a.mode == Write || b.mode == Write)
  }

  predicate SetsConflict(a: set<Claim>, b: set<Claim>) {
    exists x, y :: x in a && y in b && Conflict(x, y)
  }

  predicate Covers(parent: Claim, child: Claim) {
    && parent.kind == child.kind
    && !(parent.mode == Read && child.mode == Write)
    && (if parent.scope == Exact then child.scope == Exact && parent.key == child.key
        else Parts(parent.key) <= Parts(child.key))
  }

  /** Scope test of `validate_resource_capability`: every requested claim lies under some parent claim. */
  predicate CoveredBy(requested: set<Claim>, parents: set<Claim>) {
    forall c :: c in requested ==> exists p :: p in parents && Covers(p, c)
  }

  // ----- Meaning: the resources a claim denotes -----

  /** A claim denotes a set of resource names; an exact one names a single resource, a subtree all names below it. */
  predicate Denotes(c: Claim, name: string) {
    match c.scope
    case Exact => ExactMatch(c.kind, c.key, name)
    case Subtree => Parts(c.key) <= Parts(name)
  }

  /** Overlap is exactly a shared resource of the same kind. */
  lemma OverlapIsIntersection(a: Claim, b: Claim)
    ensures Overlap(a, b) <==> a.kind == b.kind && exists name :: Denotes(a, name) && Denotes(b, name)
  {
    if a.kind == b.kind {
      if Overlap(a, b) {
        var name := if a.scope == Subtree && (b.scope == Exact || Parts(a.key) <= Parts(b.key)) then b.key else a.key;
        assert Denotes(a, name) && Denotes(b, name);
      }
      if name :| Denotes(a, name) && Denotes(b, name) {
        PrefixesComparable(Parts(a.key), Parts(b.key), Parts(name));
      }
    }
  }

  lemma PrefixesComparable(a: seq<string>, b: seq<string>, c: seq<string>)
    ensures a <= c && b <= c ==> Comparable(a, b)
  {
    if a <= c && b <= c {
      assert a == c[..|a|] && b == c[..|b|];
      if |a| <= |b| { assert a == b[..|a|]; } else { assert b == a[..|b|]; }
    }
  }

  lemma {:induction false} PartsBelow(key: string, word: string)
    ensures PartsFrom(key + "/x", word) == PartsFrom(key, word) + ["x"]
    decreases |key|
  {
    if key == "" {
      assert key + "/x" == "/x" && "/x"[1..] == "x" && "x"[1..] == "" && "" + ['x'] == "x";
    } else {
      assert (key + "/x")[0] == key[0] && (key + "/x")[1..] == key[1..] + "/x";
      PartsBelow(key[1..], if Separator(key[0]) then "" else word + [key[0]]);
    }
  }

  /** A subtree denotes more than one resource, so no exact claim contains it. */
  lemma SubtreeIsNotExact(exact: Claim, subtree: Claim)
    requires exact.scope == Exact && subtree.scope == Subtree
    ensures exists name :: Denotes(subtree, name) && !Denotes(exact, name)
  {
    var below := subtree.key + "/x";
    PartsBelow(subtree.key, "");
    assert Denotes(subtree, subtree.key) && Denotes(subtree, below);
    assert Parts(below) != Parts(subtree.key) && |below| != |subtree.key|;
  }

  /** Cover is containment of what is denoted, with write only under write. An exact claim covers only its own spelling,
      although overlap compares components. */
  lemma CoverIsContainment(parent: Claim, child: Claim)
    ensures Covers(parent, child) <==>
              && parent.kind == child.kind && (child.mode == Write ==> parent.mode == Write)
              && (forall name :: Denotes(child, name) ==> Denotes(parent, name))
              && (parent.scope == Exact ==> parent.key == child.key)
  {
    assert Denotes(child, child.key);
    if parent.scope == Exact && child.scope == Subtree { SubtreeIsNotExact(parent, child); }
    if Covers(parent, child) {
      forall name | Denotes(child, name) ensures Denotes(parent, name) {
        if parent.scope == Subtree && child.scope == Subtree { assert Parts(child.key) <= Parts(name); }
      }
    }
  }

  lemma ConflictSymmetric(a: Claim, b: Claim)
    ensures Conflict(a, b) <==> Conflict(b, a)
  {
  }

  lemma SetsConflictSymmetric(a: set<Claim>, b: set<Claim>)
    ensures SetsConflict(a, b) <==> SetsConflict(b, a)
  {
    if SetsConflict(a, b) {
      var x, y :| x in a && y in b && Conflict(x, y);
      ConflictSymmetric(x, y);
      assert Conflict(y, x);
    }
    if SetsConflict(b, a) {
      var x, y :| x in b && y in a && Conflict(x, y);
      ConflictSymmetric(x, y);
      assert Conflict(y, x);
    }
  }

  /** A parent conflicts with everything its child conflicts with. */
  lemma CoverInheritsConflict(parent: Claim, child: Claim, other: Claim)
    requires Covers(parent, child) && Conflict(child, other)
    ensures Conflict(parent, other)
  {
    CoverIsContainment(parent, child);
    OverlapIsIntersection(child, other);
    OverlapIsIntersection(parent, other);
    var name :| Denotes(child, name) && Denotes(other, name);
    assert Denotes(parent, name);
  }

  /** Nested exclusion: work nested under two claim sets conflicts only if the claim sets themselves do. */
  lemma NestedExclusion(p: set<Claim>, q: set<Claim>, a: set<Claim>, b: set<Claim>)
    requires CoveredBy(a, p) && CoveredBy(b, q)
    ensures SetsConflict(a, b) ==> SetsConflict(p, q)
  {
    if SetsConflict(a, b) {
      var x, y :| x in a && y in b && Conflict(x, y);
      var px :| px in p && Covers(px, x);
      var py :| py in q && Covers(py, y);
      CoverInheritsConflict(px, x, y);
      ConflictSymmetric(px, y);
      CoverInheritsConflict(py, y, px);
      ConflictSymmetric(py, px);
    }
  }

  /** Capabilities compose: a grandchild covered by a covered child is covered by the parent. */
  lemma CoversTransitive(a: Claim, b: Claim, c: Claim)
    requires Covers(a, b) && Covers(b, c)
    ensures Covers(a, c)
  {
    if a.scope == Subtree && b.scope == Subtree {
      assert Parts(a.key) == Parts(b.key)[..|Parts(a.key)|];
    }
  }
}
