/** Merge bases and the five-way divergence verdict of packages/core/src/dag.ts. */
module Divergence {
  import opened Basics
  import opened Reachability
  import opened Ancestry

  ghost predicate CommonAncestor(g: Graph, x: RevisionId, a: RevisionId, b: RevisionId) {
    Reaches(g, x, a) && Reaches(g, x, b)
  }

  /** A common ancestor that is not properly behind another common ancestor. */
  ghost predicate IsMergeBase(g: Graph, x: RevisionId, a: RevisionId, b: RevisionId) {
    CommonAncestor(g, x, a, b)
    && forall c :: CommonAncestor(g, c, a, b) ==> !ProperAncestor(g, x, c)
  }

  ghost predicate Dominated(g: Graph, candidates: seq<RevisionId>, x: RevisionId) {
    exists c :: c in candidates && ProperAncestor(g, x, c)
  }

  /** Adds to the dominated revisions everything that lies properly behind `x`. */
  method Dominate(g: Graph, x: RevisionId, dominated: set<RevisionId>) returns (more: set<RevisionId>)
    ensures forall y :: y in more <==> y in dominated || ProperAncestor(g, y, x)
  {
    hide Reaches;
    more := dominated;
    if x !in g {
      return;
    }
    var parents := g[x];
    for j := 0 to |parents|
      invariant forall y :: y in more <==> y in dominated || exists p :: p in parents[..j] && Reaches(g, y, p)
    {
      var reachable := AncestorsOf(g, parents[j]);
      assert parents[..j + 1] == parents[..j] + [parents[j]];
      more := more + SeqToSet(reachable);
    }
    assert parents[..|parents|] == parents;
    assert forall p :: p in parents <==> Edge(g, x, p);
  }

  /** On any graph, cyclic ones included, the result lists the undominated common ancestors once each. */
  method FindMergeBase(g: Graph, a: RevisionId, b: RevisionId) returns (best: seq<RevisionId>)
    ensures NoDuplicates(best)
    ensures forall x :: x in best <==> IsMergeBase(g, x, a, b)
  {
    hide Reaches, ProperAncestor;
    var ancestorsA := AncestorsOf(g, a);
    var ancestorsB := AncestorsOf(g, b);
    var common: seq<RevisionId> := [];
    for i := 0 to |ancestorsA|
      invariant NoDuplicates(common)
      invariant forall x :: x in common <==> x in ancestorsA[..i] && x in ancestorsB
    {
      if ancestorsA[i] in ancestorsB {
        common := common + [ancestorsA[i]];
      }
    }
    assert ancestorsA[..|ancestorsA|] == ancestorsA;
    if |common| == 0 {
      return [];
    }
    var dominated: set<RevisionId> := {};
    for i := 0 to |common|
      invariant forall x :: x in dominated <==> Dominated(g, common[..i], x)
    {
      assert common[..i + 1] == common[..i] + [common[i]];
      dominated := Dominate(g, common[i], dominated);
    }
    assert common[..|common|] == common;
    assert forall x :: x in common ==> (IsMergeBase(g, x, a, b) <==> !Dominated(g, common, x));
    best := [];
    for i := 0 to |common|
      invariant NoDuplicates(best)
      invariant forall x :: x in best <==> x in common[..i] && x !in dominated
    {
      if common[i] !in dominated {
        best := best + [common[i]];
      }
    }
  }

  /** The common ancestors that lie properly above `x`. */
  ghost function Above(g: Graph, common: set<RevisionId>, x: RevisionId): set<RevisionId> {
    set c | c in common && ProperAncestor(g, x, c)
  }

  /**
   On an acyclic graph every common ancestor is an ancestor of some merge base, so there is a
   merge base as soon as there is a common ancestor. `common` lists the common ancestors.
   */
  lemma {:induction false} MergeBaseCovers(g: Graph, a: RevisionId, b: RevisionId, common: set<RevisionId>, x: RevisionId)
    returns (base: RevisionId)
    requires Acyclic(g)
    requires forall c :: c in common <==> CommonAncestor(g, c, a, b)
    requires CommonAncestor(g, x, a, b)
    ensures IsMergeBase(g, base, a, b) && Reaches(g, x, base)
    decreases Above(g, common, x)
  {
    if c :| c in Above(g, common, x) {
      forall d | d in Above(g, common, c)
        ensures d in Above(g, common, x)
      {
        ProperIsReaches(g, x, c);
        ReachesThenProper(g, x, c, d);
      }
      assert c in Above(g, common, x) && c !in Above(g, common, c);
      base := MergeBaseCovers(g, a, b, common, c);
      ProperIsReaches(g, x, c);
      ReachesTransitive(g, x, c, base);
    } else {
      ReachesSelf(g, x);
      base := x;
      forall c | CommonAncestor(g, c, a, b)
        ensures !ProperAncestor(g, x, c)
      {
        assert c !in Above(g, common, x);
      }
    }
  }

  /** All ancestors form a finite set: one exists for every graph and start. */
  lemma CommonAncestorsFinite(g: Graph, a: RevisionId, b: RevisionId) returns (common: set<RevisionId>)
    ensures forall c :: c in common <==> CommonAncestor(g, c, a, b)
  {
    var u := Universe(g, a);
    forall x | Reaches(g, x, a)
      ensures x in u
    {
      ClosedSetHoldsAncestors(g, u, x, a);
    }
    common := set c | c in u && CommonAncestor(g, c, a, b);
  }

  /** On an acyclic graph: a merge base exists exactly when the two share an ancestor. */
  lemma MergeBaseExists(g: Graph, a: RevisionId, b: RevisionId)
    requires Acyclic(g)
    ensures (exists x :: IsMergeBase(g, x, a, b)) <==> (exists x :: CommonAncestor(g, x, a, b))
    ensures forall x :: CommonAncestor(g, x, a, b) ==>
      exists base :: IsMergeBase(g, base, a, b) && Reaches(g, x, base)
  {
    var common := CommonAncestorsFinite(g, a, b);
    forall x | CommonAncestor(g, x, a, b)
      ensures exists base :: IsMergeBase(g, base, a, b) && Reaches(g, x, base)
    {
      var base := MergeBaseCovers(g, a, b, common, x);
    }
  }

  /** Merge bases are pairwise unrelated, on any graph. */
  lemma MergeBasesAntichain(g: Graph, a: RevisionId, b: RevisionId, x: RevisionId, y: RevisionId)
    requires IsMergeBase(g, x, a, b) && IsMergeBase(g, y, a, b) && Reaches(g, x, y)
    ensures x == y
  {
    ReachesSplit(g, x, y);
  }

  /** Merge bases do not depend on the order of the two revisions, on any graph. */
  lemma MergeBasesSymmetric(g: Graph, a: RevisionId, b: RevisionId, x: RevisionId)
    ensures IsMergeBase(g, x, a, b) <==> IsMergeBase(g, x, b, a)
  {
    assert forall c :: CommonAncestor(g, c, a, b) <==> CommonAncestor(g, c, b, a);
  }

  /**
   Acyclicity is needed: on a two-revision cycle the two share both revisions as ancestors,
   each dominates the other, and there is no merge base.
   */
  lemma CycleHidesMergeBase()
    ensures exists g: Graph, a, b, x :: CommonAncestor(g, x, a, b) && !exists m :: IsMergeBase(g, m, a, b)
  {
    var a, b := RevisionId("a"), RevisionId("b");
    var g: Graph := map[a := [b], b := [a]];
    assert Edge(g, a, b) && Edge(g, b, a);
    ReachesSelf(g, a);
    ReachesSelf(g, b);
    ReachesParent(g, a, b);
    ReachesParent(g, b, a);
    assert CommonAncestor(g, a, a, b) && CommonAncestor(g, b, a, b);
    forall m
      ensures !IsMergeBase(g, m, a, b)
    {
      if CommonAncestor(g, m, a, b) {
        ClosedSetHoldsAncestors(g, {a, b}, m, a);
        assert m == a ==> ProperAncestor(g, m, b);
        assert m == b ==> ProperAncestor(g, m, a);
      }
    }
  }

  ghost predicate Related(g: Graph, a: RevisionId, b: RevisionId) {
    exists x :: CommonAncestor(g, x, a, b)
  }

  ghost predicate HasMergeBase(g: Graph, a: RevisionId, b: RevisionId) {
    exists x :: IsMergeBase(g, x, a, b)
  }

  /** What is documented: no merge base means no common ancestor. */
  ghost predicate BasesAlwaysShow(g: Graph) {
    forall a, b :: Related(g, a, b) ==> HasMergeBase(g, a, b)
  }

  /** A revision on a cycle, compared with itself, has ancestors in common and no merge base. */
  lemma NoBaseOnCycle(g: Graph, x: RevisionId)
    requires ProperAncestor(g, x, x)
    ensures Related(g, x, x) && !HasMergeBase(g, x, x)
  {
    ReachesSelf(g, x);
    assert CommonAncestor(g, x, x, x);
    forall m | CommonAncestor(g, m, x, x)
      ensures !IsMergeBase(g, m, x, x)
    {
      ReachesSplit(g, m, x);
    }
  }

  /** Finding no merge base means being unrelated, for every pair, exactly on the graphs without a cycle. */
  lemma BasesShowIffAcyclic(g: Graph)
    ensures BasesAlwaysShow(g) <==> Acyclic(g)
  {
    if Acyclic(g) {
      forall a, b | Related(g, a, b)
        ensures HasMergeBase(g, a, b)
      {
        MergeBaseExists(g, a, b);
      }
    } else {
      var x :| x in g && ProperAncestor(g, x, x);
      NoBaseOnCycle(g, x);
    }
  }

  // ---- the verdict ----------------------------------------------------

  datatype Verdict =
    | Equal
    | LocalAhead
    | RemoteAhead
    | Diverged(mergeBases: seq<RevisionId>)
    | Unrelated

  /** What each verdict claims about the two heads, as the five cases are documented. */
  ghost predicate VerdictHolds(g: Graph, local: RevisionId, remote: RevisionId, v: Verdict) {
    match v
    case Equal => local == remote
    case LocalAhead => local != remote && Reaches(g, remote, local)
    case RemoteAhead => local != remote && Reaches(g, local, remote)
    case Diverged(bases) =>
      && !Reaches(g, remote, local)
      && !Reaches(g, local, remote)
      && (exists x :: CommonAncestor(g, x, local, remote))
      && NoDuplicates(bases)
      && (forall x :: x in bases <==> IsMergeBase(g, x, local, remote))
    case Unrelated => forall x :: !CommonAncestor(g, x, local, remote)
  }

  /** The verdict names the case that holds; on an acyclic graph this is total. */
  method ClassifyDivergence(g: Graph, localHead: RevisionId, remoteHead: RevisionId) returns (v: Verdict)
    ensures !v.Unrelated? ==> VerdictHolds(g, localHead, remoteHead, v)
    ensures v.Unrelated? ==> forall x :: !IsMergeBase(g, x, localHead, remoteHead)
    ensures Acyclic(g) ==> VerdictHolds(g, localHead, remoteHead, v)
  {
    if localHead == remoteHead {
      return Equal;
    }
    var behind := IsAncestor(g, remoteHead, localHead);
    if behind {
      return LocalAhead;
    }
    var ahead := IsAncestor(g, localHead, remoteHead);
    if ahead {
      return RemoteAhead;
    }
    var mergeBases := FindMergeBase(g, localHead, remoteHead);
    if |mergeBases| == 0 {
      v := Unrelated;
      forall x
        ensures !IsMergeBase(g, x, localHead, remoteHead)
      {
        assert x !in mergeBases;
      }
      if Acyclic(g) {
        MergeBaseExists(g, localHead, remoteHead);
      }
    } else {
      v := Diverged(mergeBases);
      assert mergeBases[0] in mergeBases;
      assert IsMergeBase(g, mergeBases[0], localHead, remoteHead);
    }
  }

  /** The same situation seen from the other device; the bases are compared as a set. */
  ghost predicate Mirrored(v: Verdict, w: Verdict) {
    match v
    case Equal => w.Equal?
    case LocalAhead => w.RemoteAhead?
    case RemoteAhead => w.LocalAhead?
    case Diverged(bases) => w.Diverged? && SeqToSet(w.mergeBases) == SeqToSet(bases)
    case Unrelated => w.Unrelated?
  }

  /** On an acyclic graph the claims exclude one another, and swapping the heads mirrors the verdict. */
  lemma SwappedHeadsMirror(g: Graph, a: RevisionId, b: RevisionId, v: Verdict, w: Verdict)
    requires Acyclic(g)
    requires VerdictHolds(g, a, b, v) && VerdictHolds(g, b, a, w)
    ensures Mirrored(v, w)
  {
    ReachesSelf(g, a);
    ReachesSelf(g, b);
    forall x
      ensures CommonAncestor(g, x, a, b) <==> CommonAncestor(g, x, b, a)
      ensures IsMergeBase(g, x, a, b) <==> IsMergeBase(g, x, b, a)
    {
      assert forall y :: CommonAncestor(g, y, a, b) <==> CommonAncestor(g, y, b, a);
    }
    if Reaches(g, a, b) && Reaches(g, b, a) {
      AcyclicAntisymmetric(g, a, b);
    }
    assert Reaches(g, a, b) ==> CommonAncestor(g, a, a, b);
    assert Reaches(g, b, a) ==> CommonAncestor(g, b, a, b);
    if v.Diverged? && w.Diverged? {
      assert forall x :: x in v.mergeBases <==> x in w.mergeBases;
    }
  }

  /** On an acyclic graph at most one verdict holds, up to the order of the bases. */
  lemma VerdictUnique(g: Graph, a: RevisionId, b: RevisionId, v: Verdict, w: Verdict)
    requires Acyclic(g)
    requires VerdictHolds(g, a, b, v) && VerdictHolds(g, a, b, w)
    ensures v == w || (v.Diverged? && w.Diverged? && SeqToSet(v.mergeBases) == SeqToSet(w.mergeBases))
  {
    ReachesSelf(g, a);
    ReachesSelf(g, b);
    if Reaches(g, a, b) && Reaches(g, b, a) {
      AcyclicAntisymmetric(g, a, b);
    }
    assert Reaches(g, a, b) ==> CommonAncestor(g, a, a, b);
    assert Reaches(g, b, a) ==> CommonAncestor(g, b, a, b);
    if v.Diverged? && w.Diverged? {
      assert forall x :: x in v.mergeBases <==> x in w.mergeBases;
    }
  }

  /** What the lineage of two old revisions is does not change when a fresh revision is added. */
  lemma FreshLeafKeepsBases(g: Graph, x: RevisionId, ps: seq<RevisionId>, a: RevisionId, b: RevisionId, m: RevisionId)
    requires Closed(g) && x !in g && a in g && b in g
    ensures CommonAncestor(g[x := ps], m, a, b) <==> CommonAncestor(g, m, a, b)
    ensures IsMergeBase(g[x := ps], m, a, b) <==> IsMergeBase(g, m, a, b)
  {
    var h := g[x := ps];
    forall c
      ensures CommonAncestor(h, c, a, b) <==> CommonAncestor(g, c, a, b)
      ensures CommonAncestor(g, c, a, b) ==> (ProperAncestor(h, m, c) <==> ProperAncestor(g, m, c))
    {
      FreshLeafKeepsAncestry(g, x, ps, c, a);
      FreshLeafKeepsAncestry(g, x, ps, c, b);
      if CommonAncestor(g, c, a, b) {
        ClosedGraphHoldsAncestors(g, c, a);
        forall p | Edge(g, c, p)
          ensures Reaches(h, m, p) <==> Reaches(g, m, p)
        {
          FreshLeafKeepsAncestry(g, x, ps, m, p);
        }
        assert forall p :: Edge(h, c, p) <==> Edge(g, c, p);
      }
    }
  }

  /** A verdict about two old revisions still holds, or still does not, after a fresh revision is added. */
  lemma FreshLeafKeepsVerdict(g: Graph, x: RevisionId, ps: seq<RevisionId>, a: RevisionId, b: RevisionId, v: Verdict)
    requires Closed(g) && x !in g && a in g && b in g
    ensures VerdictHolds(g[x := ps], a, b, v) <==> VerdictHolds(g, a, b, v)
  {
    hide Reaches, CommonAncestor, IsMergeBase;
    var h := g[x := ps];
    FreshLeafKeepsAncestry(g, x, ps, a, b);
    FreshLeafKeepsAncestry(g, x, ps, b, a);
    forall m
      ensures CommonAncestor(h, m, a, b) <==> CommonAncestor(g, m, a, b)
    {
      FreshLeafKeepsBases(g, x, ps, a, b, m);
    }
    forall m
      ensures IsMergeBase(h, m, a, b) <==> IsMergeBase(g, m, a, b)
    {
      FreshLeafKeepsBases(g, x, ps, a, b, m);
    }
  }
}
