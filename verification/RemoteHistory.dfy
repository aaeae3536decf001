/** What a device does with a peer's history summary: validate it, join it with its own graph, ask for the rest. */
module RemoteHistory {
  import opened Basics
  import opened Reachability
  import opened Ancestry
  import opened TopologicalOrder
  import opened Divergence

  datatype Node = Node(id: RevisionId, parentIds: seq<RevisionId>)

  ghost predicate DistinctIds(nodes: seq<Node>) {
    forall i, j :: 0 <= i < j < |nodes| ==> nodes[i].id != nodes[j].id
  }

  /** The last node of an id wins, as with repeated `Map.set`. */
  method BuildGraph(nodes: seq<Node>) returns (g: Graph)
    ensures g.Keys == set i | 0 <= i < |nodes| :: nodes[i].id
    ensures forall i :: 0 <= i < |nodes| && (forall j :: i < j < |nodes| ==> nodes[j].id != nodes[i].id) ==>
      nodes[i].id in g && g[nodes[i].id] == nodes[i].parentIds
  {
    g := map[];
    for i := 0 to |nodes|
      invariant forall x :: x in g <==> exists k :: 0 <= k < i && nodes[k].id == x
      invariant forall k :: 0 <= k < i && (forall j :: k < j < i ==> nodes[j].id != nodes[k].id) ==>
        nodes[k].id in g && g[nodes[k].id] == nodes[k].parentIds
    {
      g := g[nodes[i].id := nodes[i].parentIds];
    }
  }

  /** Accepts exactly the summaries that name each revision once and contain no cycle. */
  method ValidateRemoteGraph(nodes: seq<Node>) returns (ok: bool, g: Graph)
    ensures ok <==> DistinctIds(nodes) && Acyclic(g)
    ensures g.Keys == set i | 0 <= i < |nodes| :: nodes[i].id
    ensures DistinctIds(nodes) ==> forall i :: 0 <= i < |nodes| ==> nodes[i].id in g && g[nodes[i].id] == nodes[i].parentIds
  {
    hide Acyclic, Edge, Restrict, ParentsFirst;
    g := BuildGraph(nodes);
    var distinct, seen := SeeEach(nodes);
    if !distinct {
      return false, g;
    }
    var order := Order(g, seen);
    SeenAreKeys(nodes, seen, g.Keys);
    CyclesAreDefined(g, SeqToSet(seen));
    ok := order.Ok?;
  }

  /** Looks at each node's id once, and stops at the first that was seen before. */
  method SeeEach(nodes: seq<Node>) returns (distinct: bool, seen: seq<RevisionId>)
    ensures distinct <==> DistinctIds(nodes)
    ensures distinct ==> |seen| == |nodes| && NoDuplicates(seen) && forall k :: 0 <= k < |nodes| ==> seen[k] == nodes[k].id
  {
    seen := [];
    for i := 0 to |nodes|
      invariant |seen| == i && forall k :: 0 <= k < i ==> seen[k] == nodes[k].id
      invariant NoDuplicates(seen)
    {
      if nodes[i].id in seen {
        return false, seen;
      }
      seen := seen + [nodes[i].id];
    }
    distinct := true;
  }

  lemma SeenAreKeys(nodes: seq<Node>, seen: seq<RevisionId>, keys: set<RevisionId>)
    requires |seen| == |nodes| && forall k :: 0 <= k < |nodes| ==> seen[k] == nodes[k].id
    requires keys == set i | 0 <= i < |nodes| :: nodes[i].id
    ensures SeqToSet(seen) == keys
  {
    forall x
      ensures x in seen <==> x in keys
    {
      if x in seen {
        var k :| 0 <= k < |seen| && seen[k] == x;
        assert nodes[k].id == x;
      }
      if x in keys {
        var k :| 0 <= k < |nodes| && nodes[k].id == x;
        assert seen[k] == x;
      }
    }
  }

  /** A cycle only runs through defined revisions, so ordering those decides acyclicity. */
  lemma CyclesAreDefined(g: Graph, target: set<RevisionId>)
    requires g.Keys <= target
    ensures Acyclic(Restrict(g, target)) <==> Acyclic(g)
  {
    var r := Restrict(g, target);
    if Acyclic(g) {
      AcyclicSubgraph(r, g);
    }
    if Acyclic(r) {
      forall x | x in g
        ensures !ProperAncestor(g, x, x)
      {
        if ProperAncestor(g, x, x) {
          var p :| Edge(g, x, p) && Reaches(g, x, p);
          assert Edge(r, x, p) by {
            DefinedPathStays(g, target, x, p);
          }
          DefinedPathStays(g, target, x, p);
        }
      }
    }
  }

  lemma DefinedPathStays(g: Graph, target: set<RevisionId>, a: RevisionId, d: RevisionId)
    requires g.Keys <= target && a in target && Reaches(g, a, d)
    ensures Reaches(Restrict(g, target), a, d) && d in target
  {
    var path :| IsPathBetween(g, path, d, a);
    forall i | 0 <= i < |path| - 1
      ensures Edge(Restrict(g, target), path[i], path[i + 1])
    {
      if i + 1 < |path| - 1 {
        assert Edge(g, path[i + 1], path[i + 1 + 1]);
      }
      assert Edge(g, path[i], path[i + 1]);
    }
    assert IsPathBetween(Restrict(g, target), path, d, a);
    if |path| > 1 {
      assert Edge(g, path[0], path[0 + 1]);
    }
  }

  // ---- what to ask for -------------------------------------------------

  /** Exactly the remote head's defined ancestors that are not held, once each, parents first. */
  ghost predicate IsWantList(remote: Graph, head: RevisionId, held: set<RevisionId>, wanted: seq<RevisionId>) {
    && NoDuplicates(wanted)
    && (forall x :: x in wanted <==> Reaches(remote, x, head) && x in remote && x !in held)
    && ParentsFirst(remote, SeqToSet(wanted), wanted)
  }

  method MissingRevisions(remote: Graph, head: RevisionId, held: set<RevisionId>)
    returns (r: Result<seq<RevisionId>, RevisionId>)
    ensures r.Ok? ==> IsWantList(remote, head, held, r.value)
    ensures Acyclic(remote) ==> r.Ok?
  {
    var behind := AncestorsOf(remote, head);
    var wanted: seq<RevisionId> := [];
    for i := 0 to |behind|
      invariant forall x :: x in wanted <==> x in behind[..i] && x !in held && x in remote
    {
      if behind[i] !in held && behind[i] in remote {
        wanted := wanted + [behind[i]];
      }
    }
    assert behind[..|behind|] == behind;
    r := Order(remote, wanted);
    if Acyclic(remote) {
      AcyclicSubgraph(Restrict(remote, SeqToSet(wanted)), remote);
    }
    if r.Ok? {
      assert forall x :: x in r.value <==> x in SeqToSet(r.value);
    }
  }

  /** A validated summary always has a want list. */
  lemma WantListExists(remote: Graph, head: RevisionId, held: set<RevisionId>) returns (wanted: seq<RevisionId>)
    requires Acyclic(remote)
    ensures IsWantList(remote, head, held, wanted)
  {
    var target := set x | x in remote && Reaches(remote, x, head) && x !in held;
    AcyclicSubgraph(Restrict(remote, target), remote);
    wanted := OrderExists(remote, target);
    assert forall x :: x in wanted <==> x in SeqToSet(wanted);
  }

  /** Everything the remote head rests on is in the remote summary. */
  ghost predicate ClosedBelow(remote: Graph, head: RevisionId) {
    forall x :: Reaches(remote, x, head) ==> x in remote
  }

  /**
   Ingesting a want list in order never meets a missing parent: whatever prefix has been
   stored, the next revision's parents are all held.
   */
  lemma WantListIngestsInOrder(remote: Graph, head: RevisionId, held: set<RevisionId>, wanted: seq<RevisionId>, k: nat)
    requires IsWantList(remote, head, held, wanted) && ClosedBelow(remote, head) && k < |wanted|
    ensures forall p :: p in remote[wanted[k]] ==> p in held + SeqToSet(wanted[..k])
  {
    var x := wanted[k];
    assert x in wanted;
    forall p | p in remote[x]
      ensures p in held + SeqToSet(wanted[..k])
    {
      assert Edge(remote, x, p);
      ReachesParent(remote, x, p);
      ReachesTransitive(remote, p, x, head);
      if p !in held {
        assert p in wanted;
        assert p in SeqToSet(wanted);
      }
    }
  }

  // ---- joining two graphs ----------------------------------------------

  /** Nodes of the overlay win. */
  function UnionGraphs(base: Graph, overlay: Graph): Graph {
    base + overlay
  }

  /** The nodes of a graph, each once, in whatever order. */
  ghost predicate ListsGraph(nodes: seq<Node>, g: Graph) {
    && DistinctIds(nodes) && (forall i :: 0 <= i < |nodes| ==> nodes[i].id in g && g[nodes[i].id] == nodes[i].parentIds)
    && (forall id :: id in g ==> exists i :: 0 <= i < |nodes| && nodes[i].id == id)
  }

  /** Joining lists all nodes of the base, then all of the overlay: an overlay's node stands for both. */
  method JoinGraphs(base: seq<Node>, overlay: seq<Node>, ghost g: Graph, ghost h: Graph) returns (u: Graph)
    requires ListsGraph(base, g) && ListsGraph(overlay, h)
    ensures u.Keys == g.Keys + h.Keys
    ensures forall id :: id in u ==> u[id] == if id in h then h[id] else g[id]
    ensures u == UnionGraphs(g, h)
  {
    hide ListsGraph;
    var all := base + overlay;
    u := BuildGraph(all);
    forall id
      ensures id in u <==> id in g || id in h
      ensures id in g || id in h ==> id in u && u[id] == if id in h then h[id] else g[id]
    {
      if id in g || id in h {
        var k := LastNode(base, overlay, g, h, id);
        assert all[k].id in u && u[all[k].id] == all[k].parentIds;
      }
      if id in u {
        var k :| 0 <= k < |all| && all[k].id == id;
        NodesAreListed(base, overlay, g, h, k);
      }
    }
  }

  lemma NodesAreListed(base: seq<Node>, overlay: seq<Node>, g: Graph, h: Graph, k: nat)
    requires ListsGraph(base, g) && ListsGraph(overlay, h) && k < |base + overlay|
    ensures (base + overlay)[k].id in g || (base + overlay)[k].id in h
  {
    hide DistinctIds;
    assert (base + overlay)[k] == if k < |base| then base[k] else overlay[k - |base|];
  }

  /** Where the node that stands for `id` is listed. */
  lemma LastNode(base: seq<Node>, overlay: seq<Node>, g: Graph, h: Graph, id: RevisionId) returns (k: nat)
    requires ListsGraph(base, g) && ListsGraph(overlay, h) && (id in g || id in h)
    ensures k < |base + overlay| && forall j :: k < j < |base + overlay| ==> (base + overlay)[j].id != id
    ensures (base + overlay)[k] == Node(id, if id in h then h[id] else g[id])
  {
    var all := base + overlay;
    if id in h {
      var i :| 0 <= i < |overlay| && overlay[i].id == id;
      k := |base| + i;
      forall j | k < j < |all|
        ensures all[j].id != id
      {
        assert all[j] == overlay[j - |base|];
      }
    } else {
      k :| 0 <= k < |base| && base[k].id == id;
      forall j | k < j < |all|
        ensures all[j].id != id
      {
        if j >= |base| {
          assert all[j] == overlay[j - |base|];
        } else {
          assert all[j] == base[j];
        }
      }
    }
  }

  /** In the union of a closed graph with an agreeing one, ancestors of a local revision are its local ancestors. */
  lemma LocalAncestryIsLocal(local: Graph, remote: Graph, a: RevisionId, d: RevisionId)
    requires Closed(local) && Agree(local, remote) && d in local
    requires Reaches(UnionGraphs(local, remote), a, d)
    ensures a in local && Reaches(local, a, d)
  {
    var u := UnionGraphs(local, remote);
    forall c, p | c in local && Edge(u, c, p)
      ensures Edge(local, c, p)
    {
      assert c in remote ==> Edge(remote, c, p);
    }
    assert ClosedUnderParents(u, local.Keys);
    ClosedSetHoldsAncestors(u, local.Keys, a, d);
    forall c, p | Reaches(u, c, d) && Edge(u, c, p)
      ensures Edge(local, c, p)
    {
      ClosedSetHoldsAncestors(u, local.Keys, c, d);
    }
    ReachesTransfers(u, local, a, d);
  }

  /** Joining a closed acyclic history with an agreeing acyclic summary cannot create a cycle. */
  lemma UnionAcyclic(local: Graph, remote: Graph)
    requires Acyclic(local) && Acyclic(remote) && Closed(local) && Agree(local, remote)
    ensures Acyclic(UnionGraphs(local, remote))
  {
    var u := UnionGraphs(local, remote);
    forall x | x in u
      ensures !ProperAncestor(u, x, x)
    {
      if ProperAncestor(u, x, x) {
        var p :| Edge(u, x, p) && Reaches(u, x, p);
        if x in local {
          assert Edge(local, x, p) by {
            assert x in remote ==> Edge(remote, x, p);
          }
          LocalAncestryIsLocal(local, remote, x, p);
          assert false;
        } else {
          forall c, q | Reaches(u, c, p) && Reaches(u, x, c) && Edge(u, c, q)
            ensures Edge(remote, c, q)
          {
            if c in local {
              LocalAncestryIsLocal(local, remote, x, c);
            }
          }
          ReachesTransfers(u, remote, x, p);
          assert Edge(remote, x, p);
          assert false;
        }
      }
    }
  }

  /** Without closure the join can be cyclic although both halves are acyclic and share no revision. */
  lemma UnionNeedsClosure()
    ensures exists local: Graph, remote: Graph ::
      Acyclic(local) && Acyclic(remote) && Agree(local, remote) && !Acyclic(UnionGraphs(local, remote))
  {
    var a, b := RevisionId("a"), RevisionId("b");
    var local: Graph, remote: Graph := map[a := [b]], map[b := [a]];
    TwoCycleHalves(a, b, local, remote);
  }

  /** Without agreement the join can be cyclic although the local half is closed. */
  lemma UnionNeedsAgreement()
    ensures exists local: Graph, remote: Graph ::
      Acyclic(local) && Acyclic(remote) && Closed(local) && !Acyclic(UnionGraphs(local, remote))
  {
    var a, b := RevisionId("a"), RevisionId("b");
    var local: Graph, remote: Graph := map[a := [b], b := []], map[b := [a]];
    TwoCycleHalves(a, b, local, remote);
    assert Closed(local);
  }

  lemma TwoCycleHalves(a: RevisionId, b: RevisionId, local: Graph, remote: Graph)
    requires a != b && a !in remote && remote == map[b := [a]]
    requires a in local && local[a] == [b] && (b in local ==> local[b] == []) && local.Keys <= {a, b}
    ensures Acyclic(local) && Acyclic(remote) && !Acyclic(UnionGraphs(local, remote))
  {
    assert ClosedUnderParents(local, {b});
    assert ClosedUnderParents(remote, {a});
    if Reaches(local, a, b) {
      ClosedSetHoldsAncestors(local, {b}, a, b);
    }
    if Reaches(remote, b, a) {
      ClosedSetHoldsAncestors(remote, {a}, b, a);
    }
    assert forall p :: Edge(local, a, p) <==> p == b;
    assert forall p :: !Edge(local, b, p);
    assert forall p :: Edge(remote, b, p) <==> p == a;
    var u := UnionGraphs(local, remote);
    assert Edge(u, a, b) && Edge(u, b, a);
    ReachesParent(u, b, a);
    assert ProperAncestor(u, a, a);
  }

  /**
   Two devices that join their closed, acyclic, agreeing histories with each other's summary
   reach mirrored verdicts about their heads.
   */
  lemma DevicesReachMirroredVerdicts(gA: Graph, gB: Graph, headA: RevisionId, headB: RevisionId, v: Verdict, w: Verdict)
    requires Closed(gA) && Closed(gB) && Acyclic(gA) && Acyclic(gB) && Agree(gA, gB)
    requires VerdictHolds(UnionGraphs(gA, gB), headA, headB, v)
    requires VerdictHolds(UnionGraphs(gB, gA), headB, headA, w)
    ensures Mirrored(v, w)
  {
    var u, u' := UnionGraphs(gA, gB), UnionGraphs(gB, gA);
    UnionAcyclic(gA, gB);
    forall c, p
      ensures Edge(u, c, p) <==> Edge(u', c, p)
    {
      assert c in gA && c in gB ==> (Edge(gA, c, p) <==> Edge(gB, c, p));
    }
    SameEdgesSameVerdict(u, u', headB, headA, w);
    SwappedHeadsMirror(u, headA, headB, v, w);
  }

  /** Reachability, and so every verdict, depends on the set of edges alone. */
  lemma SameEdgesSameVerdict(g: Graph, h: Graph, a: RevisionId, b: RevisionId, v: Verdict)
    requires forall c, p :: Edge(g, c, p) <==> Edge(h, c, p)
    requires VerdictHolds(h, a, b, v)
    ensures VerdictHolds(g, a, b, v)
  {
    forall x, y
      ensures Reaches(g, x, y) <==> Reaches(h, x, y)
      ensures ProperAncestor(g, x, y) <==> ProperAncestor(h, x, y)
    {
      SameEdgesSameReach(g, h, x, y);
    }
    assert forall x :: CommonAncestor(g, x, a, b) <==> CommonAncestor(h, x, a, b);
    assert forall x :: IsMergeBase(g, x, a, b) <==> IsMergeBase(h, x, a, b);
  }

  lemma SameEdgesSameReach(g: Graph, h: Graph, x: RevisionId, y: RevisionId)
    requires forall c, p :: Edge(g, c, p) <==> Edge(h, c, p)
    ensures Reaches(g, x, y) <==> Reaches(h, x, y)
    ensures ProperAncestor(g, x, y) <==> ProperAncestor(h, x, y)
  {
    forall a, d
      ensures Reaches(g, a, d) <==> Reaches(h, a, d)
    {
      if Reaches(g, a, d) {
        ReachesMonotone(g, h, a, d);
      }
      if Reaches(h, a, d) {
        ReachesMonotone(h, g, a, d);
      }
    }
    if ProperAncestor(g, x, y) {
      var q :| Edge(g, y, q) && Reaches(g, x, q);
      assert Edge(h, y, q);
    }
    if ProperAncestor(h, x, y) {
      var q :| Edge(h, y, q) && Reaches(h, x, q);
      assert Edge(g, y, q);
    }
  }
}
