/**
 The declarative side of the ancestry library: revision graphs, paths, reachability and
 acyclicity. Every algorithm over revision graphs is specified in these terms.
 */
module Reachability {
  import opened Basics

  /** Each defined revision with its declared parents. A parent may be undefined: it is then a frontier. */
  type Graph = map<RevisionId, seq<RevisionId>>

  ghost predicate Edge(g: Graph, child: RevisionId, parent: RevisionId) {
    child in g && parent in g[child]
  }

  /** A walk from `p[0]` towards the roots, one parent edge at a time. */
  ghost predicate IsPath(g: Graph, p: seq<RevisionId>) {
    |p| > 0 && forall i :: 0 <= i < |p| - 1 ==> Edge(g, p[i], p[i + 1])
  }

  ghost predicate IsPathBetween(g: Graph, p: seq<RevisionId>, from: RevisionId, to: RevisionId) {
    IsPath(g, p) && p[0] == from && p[|p| - 1] == to
  }

  /** `ancestor` is `descendant` itself or can be reached from it by walking parents. */
  ghost predicate Reaches(g: Graph, ancestor: RevisionId, descendant: RevisionId) {
    exists p :: IsPathBetween(g, p, descendant, ancestor)
  }

  /** At least one parent edge separates the two. */
  ghost predicate ProperAncestor(g: Graph, ancestor: RevisionId, descendant: RevisionId) {
    exists parent :: Edge(g, descendant, parent) && Reaches(g, ancestor, parent)
  }

  ghost predicate Acyclic(g: Graph) {
    forall x :: x in g ==> !ProperAncestor(g, x, x)
  }

  /** Every declared parent is itself defined. */
  ghost predicate Closed(g: Graph) {
    forall c, p :: Edge(g, c, p) ==> p in g
  }

  /** Shared revisions declare the same parents. */
  ghost predicate Agree(g: Graph, h: Graph) {
    forall c, p :: c in g && c in h ==> (Edge(g, c, p) <==> Edge(h, c, p))
  }

  ghost predicate ClosedUnderParents(g: Graph, s: set<RevisionId>) {
    forall c, p :: c in s && Edge(g, c, p) ==> p in s
  }

  lemma ReachesSelf(g: Graph, x: RevisionId)
    ensures Reaches(g, x, x)
  {
    assert IsPathBetween(g, [x], x, x);
  }

  lemma ReachesTransitive(g: Graph, a: RevisionId, b: RevisionId, c: RevisionId)
    requires Reaches(g, a, b) && Reaches(g, b, c)
    ensures Reaches(g, a, c)
  {
    var p :| IsPathBetween(g, p, b, a);
    var q :| IsPathBetween(g, q, c, b);
    var r := q + p[1..];
    forall i | 0 <= i < |r| - 1
      ensures Edge(g, r[i], r[i + 1])
    {
      if i < |q| - 1 {
        assert r[i] == q[i] && r[i + 1] == q[i + 1];
      } else {
        var k := i - (|q| - 1);
        assert r[i] == p[k] && r[i + 1] == p[k + 1];
      }
    }
    assert IsPathBetween(g, r, c, a);
  }

  lemma ReachesParent(g: Graph, child: RevisionId, parent: RevisionId)
    requires Edge(g, child, parent)
    ensures Reaches(g, parent, child)
  {
    assert IsPathBetween(g, [child, parent], child, parent);
  }

  lemma ReachesThroughParent(g: Graph, a: RevisionId, child: RevisionId, parent: RevisionId)
    requires Edge(g, child, parent) && Reaches(g, a, parent)
    ensures Reaches(g, a, child) && ProperAncestor(g, a, child)
  {
    ReachesParent(g, child, parent);
    ReachesTransitive(g, a, parent, child);
  }

  /** Every ancestor is the revision itself or an ancestor of one of its parents. */
  lemma ReachesSplit(g: Graph, a: RevisionId, d: RevisionId)
    requires Reaches(g, a, d)
    ensures a == d || ProperAncestor(g, a, d)
  {
    var p :| IsPathBetween(g, p, d, a);
    if |p| > 1 {
      assert Edge(g, p[0], p[1]);
      var q := p[1..];
      forall i | 0 <= i < |q| - 1
        ensures Edge(g, q[i], q[i + 1])
      {
        assert Edge(g, p[i + 1], p[i + 2]);
      }
      assert IsPathBetween(g, q, p[1], a);
    }
  }

  lemma ProperIsReaches(g: Graph, a: RevisionId, d: RevisionId)
    requires ProperAncestor(g, a, d)
    ensures Reaches(g, a, d)
  {
    var parent :| Edge(g, d, parent) && Reaches(g, a, parent);
    ReachesThroughParent(g, a, d, parent);
  }

  lemma ProperThenReaches(g: Graph, a: RevisionId, b: RevisionId, c: RevisionId)
    requires ProperAncestor(g, a, b) && Reaches(g, b, c)
    ensures ProperAncestor(g, a, c)
  {
    ReachesSplit(g, b, c);
    if b != c {
      var parent :| Edge(g, c, parent) && Reaches(g, b, parent);
      ProperIsReaches(g, a, b);
      ReachesTransitive(g, a, b, parent);
    }
  }

  lemma ReachesThenProper(g: Graph, a: RevisionId, b: RevisionId, c: RevisionId)
    requires Reaches(g, a, b) && ProperAncestor(g, b, c)
    ensures ProperAncestor(g, a, c)
  {
    var parent :| Edge(g, c, parent) && Reaches(g, b, parent);
    ReachesTransitive(g, a, b, parent);
  }

  /** An acyclic graph never lets two different revisions be ancestors of one another. */
  lemma AcyclicAntisymmetric(g: Graph, a: RevisionId, b: RevisionId)
    requires Acyclic(g) && Reaches(g, a, b) && Reaches(g, b, a)
    ensures a == b
  {
    if a != b {
      ReachesSplit(g, a, b);
      ProperThenReaches(g, a, b, a);
      ReachesSplit(g, b, a);
    }
  }

  /** A set closed under parents holds every ancestor of its members. */
  lemma {:induction false} ClosedSetHoldsPath(g: Graph, s: set<RevisionId>, p: seq<RevisionId>, k: nat)
    requires ClosedUnderParents(g, s) && IsPath(g, p) && p[0] in s && k < |p|
    ensures p[k] in s
  {
    if k > 0 {
      ClosedSetHoldsPath(g, s, p, k - 1);
      assert Edge(g, p[k - 1], p[k - 1 + 1]);
    }
  }

  lemma ClosedSetHoldsAncestors(g: Graph, s: set<RevisionId>, a: RevisionId, d: RevisionId)
    requires ClosedUnderParents(g, s) && d in s && Reaches(g, a, d)
    ensures a in s
  {
    var p :| IsPathBetween(g, p, d, a);
    ClosedSetHoldsPath(g, s, p, |p| - 1);
  }

  /** Walking up a closed graph never leaves it. */
  lemma ClosedGraphHoldsAncestors(g: Graph, a: RevisionId, d: RevisionId)
    requires Closed(g) && d in g && Reaches(g, a, d)
    ensures a in g
  {
    ClosedSetHoldsAncestors(g, g.Keys, a, d);
  }

  /** Only the edges that leave revisions between `d` and `a` matter for a walk from `d` to `a`. */
  lemma ReachesTransfers(g: Graph, h: Graph, a: RevisionId, d: RevisionId)
    requires Reaches(g, a, d)
    requires forall c, q :: Reaches(g, c, d) && Reaches(g, a, c) && Edge(g, c, q) ==> Edge(h, c, q)
    ensures Reaches(h, a, d)
  {
    var p :| IsPathBetween(g, p, d, a);
    forall i | 0 <= i < |p| - 1
      ensures Edge(h, p[i], p[i + 1])
    {
      assert IsPathBetween(g, p[..i + 1], d, p[i]);
      var rest := p[i..];
      forall k | 0 <= k < |rest| - 1
        ensures Edge(g, rest[k], rest[k + 1])
      {
        assert Edge(g, p[i + k], p[i + k + 1]);
      }
      assert IsPathBetween(g, rest, p[i], a);
    }
    assert IsPathBetween(h, p, d, a);
  }

  /** More edges, more ancestors. */
  lemma ReachesMonotone(g: Graph, h: Graph, a: RevisionId, d: RevisionId)
    requires Reaches(g, a, d)
    requires forall c, q :: Edge(g, c, q) ==> Edge(h, c, q)
    ensures Reaches(h, a, d)
  {
    var p :| IsPathBetween(g, p, d, a);
    assert IsPathBetween(h, p, d, a);
  }

  /** A subgraph of an acyclic graph is acyclic. */
  lemma AcyclicSubgraph(g: Graph, h: Graph)
    requires Acyclic(h)
    requires forall c, q :: Edge(g, c, q) ==> Edge(h, c, q)
    ensures Acyclic(g)
  {
    forall x | x in g
      ensures !ProperAncestor(g, x, x)
    {
      if ProperAncestor(g, x, x) {
        var q :| Edge(g, x, q) && Reaches(g, x, q);
        assert Edge(h, x, q);
        ReachesMonotone(g, h, x, q);
      }
    }
  }

  // ---- adding edges below one revision -----------------------------------

  /** `g` with `ps` added to the parents of `x`, defining `x` if it was not. */
  ghost function WithParents(g: Graph, x: RevisionId, ps: seq<RevisionId>): Graph {
    g[x := (if x in g then g[x] else []) + ps]
  }

  /** A walk that ends at `x` uses no edge out of `x` before it first meets `x`. */
  lemma {:induction false} NewEdgesNotNeeded(g: Graph, x: RevisionId, ps: seq<RevisionId>, p: seq<RevisionId>)
    requires IsPath(WithParents(g, x, ps), p) && p[|p| - 1] == x
    ensures Reaches(g, x, p[0])
    decreases |p|
  {
    if p[0] == x {
      ReachesSelf(g, x);
    } else {
      assert Edge(WithParents(g, x, ps), p[0], p[0 + 1]);
      var rest := p[1..];
      forall i | 0 <= i < |rest| - 1
        ensures Edge(WithParents(g, x, ps), rest[i], rest[i + 1])
      {
        assert Edge(WithParents(g, x, ps), p[i + 1], p[i + 1 + 1]);
      }
      NewEdgesNotNeeded(g, x, ps, rest);
      ReachesThroughParent(g, x, p[0], p[1]);
    }
  }

  /**
   Giving `x` more parents keeps an acyclic graph acyclic exactly when none of them already
   has `x` among its ancestors.
   */
  lemma AddingParentsAcyclicIff(g: Graph, x: RevisionId, ps: seq<RevisionId>)
    requires Acyclic(g)
    ensures Acyclic(WithParents(g, x, ps)) <==> forall p :: p in ps ==> !Reaches(g, x, p)
  {
    var h := WithParents(g, x, ps);
    if q :| q in ps && Reaches(g, x, q) {
      assert Edge(h, x, q);
      ReachesMonotone(g, h, x, q);
    } else {
      assert forall q :: Edge(g, x, q) ==> !Reaches(g, x, q);
      forall q | Edge(h, x, q)
        ensures !Reaches(h, x, q)
      {
        if Reaches(h, x, q) {
          var path :| IsPathBetween(h, path, q, x);
          NewEdgesNotNeeded(g, x, ps, path);
        }
      }
      forall y | y in h
        ensures !ProperAncestor(h, y, y)
      {
        if ProperAncestor(h, y, y) {
          CycleAvoidsOrMeets(g, h, x, y);
        }
      }
    }
  }

  /** A cycle of the larger graph runs through `x`, or it was there before. */
  lemma CycleAvoidsOrMeets(g: Graph, h: Graph, x: RevisionId, y: RevisionId)
    requires forall c, p :: c != x && Edge(h, c, p) ==> Edge(g, c, p)
    requires ProperAncestor(h, y, y)
    ensures (y in g && ProperAncestor(g, y, y)) || ProperAncestor(h, x, x)
  {
    var p :| Edge(h, y, p) && Reaches(h, y, p);
    if Reaches(h, x, p) && Reaches(h, y, x) {
      ReachesThroughParent(h, x, y, p);
      ReachesSplit(h, y, x);
      if y != x {
        ReachesThenProper(h, x, y, x);
      }
    } else if y != x {
      forall c, q | Reaches(h, c, p) && Reaches(h, y, c) && Edge(h, c, q)
        ensures Edge(g, c, q)
      {
      }
      ReachesTransfers(h, g, y, p);
    }
  }

  /** Defining a fresh revision over stored parents keeps a history closed and acyclic. */
  lemma FreshLeaf(g: Graph, x: RevisionId, ps: seq<RevisionId>)
    requires Closed(g) && Acyclic(g) && x !in g && forall p :: p in ps ==> p in g
    ensures Closed(g[x := ps]) && Acyclic(g[x := ps])
  {
    forall p | p in ps
      ensures !Reaches(g, x, p)
    {
      if Reaches(g, x, p) {
        ClosedGraphHoldsAncestors(g, x, p);
      }
    }
    AddingParentsAcyclicIff(g, x, ps);
    var h := g[x := ps];
    assert [] + ps == ps && WithParents(g, x, ps) == h;
    forall c, p | Edge(h, c, p)
      ensures p in h
    {
      assert c != x ==> Edge(g, c, p);
    }
  }

  /** A fresh leaf changes no ancestry among the revisions that were there. */
  lemma FreshLeafKeepsAncestry(g: Graph, x: RevisionId, ps: seq<RevisionId>, a: RevisionId, d: RevisionId)
    requires Closed(g) && x !in g && d in g
    ensures Reaches(g[x := ps], a, d) <==> Reaches(g, a, d)
  {
    var h := g[x := ps];
    if Reaches(g, a, d) {
      ReachesMonotone(g, h, a, d);
    }
    if Reaches(h, a, d) {
      assert forall c, p :: c in g && Edge(h, c, p) ==> Edge(g, c, p);
      assert ClosedUnderParents(h, g.Keys);
      forall c, q | Reaches(h, c, d) && Reaches(h, a, c) && Edge(h, c, q)
        ensures Edge(g, c, q)
      {
        ClosedSetHoldsAncestors(h, g.Keys, c, d);
      }
      ReachesTransfers(h, g, a, d);
    }
  }
}
