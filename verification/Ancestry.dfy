/** The worklist searches of packages/core/src/dag.ts, against reachability. */
module Ancestry {
  import opened Basics
  import opened Reachability

  /** Everything a search from `id` can ever look at. */
  ghost function Universe(g: Graph, id: RevisionId): (u: set<RevisionId>)
    ensures id in u
    ensures forall c, p :: Edge(g, c, p) ==> p in u
  {
    {id} + set c, p | c in g && p in g[c] :: p
  }

  /** All that was seen, in the order it was first seen, and nothing but ancestors. */
  ghost predicate SearchSound(g: Graph, id: RevisionId, visited: seq<RevisionId>) {
    forall x :: x in visited ==> Reaches(g, x, id)
  }

  /** A visited revision's parents are visited or still queued. */
  ghost predicate SearchFrontier(g: Graph, seen: seq<RevisionId>, queue: seq<RevisionId>) {
    forall c, p :: c in seen && Edge(g, c, p) ==> p in seen || p in queue
  }

  /** Appends the parents from `from` on that were not seen yet, in order. */
  method PushUnseen(parents: seq<RevisionId>, seen: seq<RevisionId>, queue: seq<RevisionId>)
    returns (extended: seq<RevisionId>)
    ensures queue <= extended
    ensures forall x :: x in extended <==> x in queue || (x in parents && x !in seen)
    ensures |extended| <= |queue| + |parents|
  {
    extended := queue;
    for i := 0 to |parents|
      invariant queue <= extended && |extended| <= |queue| + i
      invariant forall x :: x in extended <==> x in queue || (x in parents[..i] && x !in seen)
    {
      if parents[i] !in seen {
        extended := extended + [parents[i]];
      }
    }
  }

  /**
   `id` and everything behind it. Absent parents are kept as a frontier: they are members
   without outgoing edges.
   */
  method AncestorsOf(g: Graph, id: RevisionId) returns (seen: seq<RevisionId>)
    ensures NoDuplicates(seen) && |seen| > 0 && seen[0] == id
    ensures forall x :: x in seen <==> Reaches(g, x, id)
  {
    seen := [];
    var queue := [id];
    ReachesSelf(g, id);
    while |queue| > 0
      invariant NoDuplicates(seen)
      invariant if seen == [] then queue == [id] else seen[0] == id
      invariant SearchSound(g, id, seen) && SearchSound(g, id, queue)
      invariant SearchFrontier(g, seen, queue)
      invariant forall x :: x in queue || x in seen ==> x in Universe(g, id)
      decreases Universe(g, id) - SeqToSet(seen), |queue|
    {
      var current := queue[|queue| - 1];
      queue := queue[..|queue| - 1];
      ghost var before := seen;
      if current in seen {
        continue;
      }
      seen := seen + [current];
      assert current in SeqToSet(seen) && current !in SeqToSet(before);
      assert forall x :: x in SeqToSet(before) ==> x in SeqToSet(seen);
      if current !in g {
        continue;
      }
      ghost var rest := queue;
      queue := PushUnseen(g[current], seen, queue);
      forall x | x in queue
        ensures Reaches(g, x, id) && x in Universe(g, id)
      {
        if x !in rest {
          assert Edge(g, current, x);
          ReachesParent(g, current, x);
          ReachesTransitive(g, x, current, id);
        }
      }
    }
    forall x | Reaches(g, x, id)
      ensures x in seen
    {
      ClosedSetHoldsAncestors(g, SeqToSet(seen), x, id);
    }
  }

  /** The early-exit search answers exactly the reachability question. */
  method IsAncestor(g: Graph, ancestor: RevisionId, descendant: RevisionId) returns (r: bool)
    ensures r <==> Reaches(g, ancestor, descendant)
  {
    ReachesSelf(g, descendant);
    if ancestor == descendant {
      return true;
    }
    var queue := [descendant];
    var seen: seq<RevisionId> := [];
    while |queue| > 0
      invariant descendant in queue || descendant in seen
      invariant ancestor !in seen && ancestor !in queue
      invariant SearchSound(g, descendant, seen) && SearchSound(g, descendant, queue)
      invariant SearchFrontier(g, seen, queue)
      invariant forall x :: x in queue || x in seen ==> x in Universe(g, descendant)
      decreases Universe(g, descendant) - SeqToSet(seen), |queue|
    {
      var current := queue[|queue| - 1];
      queue := queue[..|queue| - 1];
      ghost var before := seen;
      if current in seen {
        continue;
      }
      seen := seen + [current];
      assert current in SeqToSet(seen) && current !in SeqToSet(before);
      assert forall x :: x in SeqToSet(before) ==> x in SeqToSet(seen);
      if current !in g {
        continue;
      }
      var parents := g[current];
      for i := 0 to |parents|
        invariant descendant in queue || descendant in seen
        invariant ancestor !in queue && ancestor !in parents[..i]
        invariant SearchSound(g, descendant, queue)
        invariant forall c, p :: c in before && Edge(g, c, p) ==> p in seen || p in queue
        invariant forall p :: p in parents[..i] ==> p in seen || p in queue
        invariant forall x :: x in queue ==> x in Universe(g, descendant)
      {
        var parentId := parents[i];
        assert Edge(g, current, parentId);
        ReachesParent(g, current, parentId);
        ReachesTransitive(g, parentId, current, descendant);
        if parentId == ancestor {
          return true;
        }
        if parentId !in seen {
          queue := queue + [parentId];
        }
      }
      assert parents[..|parents|] == parents;
    }
    if Reaches(g, ancestor, descendant) {
      ClosedSetHoldsAncestors(g, SeqToSet(seen), ancestor, descendant);
      assert false;
    }
    return false;
  }
}
