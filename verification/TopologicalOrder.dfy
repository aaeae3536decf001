/** The explicit-stack ordering of packages/core/src/dag.ts, with cycle rejection. */
module TopologicalOrder {
  import opened Basics
  import opened Reachability

  /** The graph the ordering looks at: edges with both ends among the targets. */
  ghost function Restrict(g: Graph, target: set<RevisionId>): (r: Graph)
    ensures forall c, p :: Edge(r, c, p) <==> Edge(g, c, p) && c in target && p in target
  {
    map c | c in g && c in target :: KeepIn(g[c], target)
  }

  ghost function KeepIn(s: seq<RevisionId>, target: set<RevisionId>): (r: seq<RevisionId>)
    ensures forall x :: x in r <==> x in s && x in target
  {
    if s == [] then []
    else if s[0] in target then [s[0]] + KeepIn(s[1..], target)
    else KeepIn(s[1..], target)
  }

  /** Every in-target parent of `ordered[j]` stands somewhere before position `j`. */
  ghost predicate ParentsFirst(g: Graph, target: set<RevisionId>, ordered: seq<RevisionId>) {
    forall j, p :: 0 <= j < |ordered| && Edge(g, ordered[j], p) && p in target ==> p in ordered[..j]
  }

  ghost predicate IsTopologicalOrder(g: Graph, target: set<RevisionId>, ordered: seq<RevisionId>) {
    && NoDuplicates(ordered)
    && SeqToSet(ordered) == target
    && ParentsFirst(g, target, ordered)
  }

  // ---- an ordering rules out cycles ------------------------------------

  /** Walking up from position `j` of an ordering only meets positions at or before it. */
  lemma {:induction false} PathGoesBack(g: Graph, target: set<RevisionId>, ordered: seq<RevisionId>,
      p: seq<RevisionId>, j: nat)
    requires IsTopologicalOrder(g, target, ordered) && IsPath(Restrict(g, target), p)
    requires j < |ordered| && ordered[j] == p[0]
    ensures p[|p| - 1] in ordered[..j + 1]
    decreases |p|
  {
    if |p| > 1 {
      assert Edge(Restrict(g, target), p[0], p[0 + 1]);
      var i :| 0 <= i < j && ordered[i] == p[1];
      var q := p[1..];
      forall k | 0 <= k < |q| - 1
        ensures Edge(Restrict(g, target), q[k], q[k + 1])
      {
        assert Edge(Restrict(g, target), p[k + 1], p[k + 1 + 1]);
      }
      PathGoesBack(g, target, ordered, q, i);
    }
  }

  /** A parents-first ordering exists only where there is no cycle. */
  lemma OrderedIsAcyclic(g: Graph, target: set<RevisionId>, ordered: seq<RevisionId>)
    requires IsTopologicalOrder(g, target, ordered)
    ensures Acyclic(Restrict(g, target))
  {
    var r := Restrict(g, target);
    forall x | x in r
      ensures !ProperAncestor(r, x, x)
    {
      if ProperAncestor(r, x, x) {
        var q :| Edge(r, x, q) && Reaches(r, x, q);
        assert x in SeqToSet(ordered);
        var j :| 0 <= j < |ordered| && ordered[j] == x;
        var i :| 0 <= i < j && ordered[i] == q;
        var p :| IsPathBetween(r, p, q, x);
        PathGoesBack(g, target, ordered, p, i);
        assert false;
      }
    }
  }

  // ---- the stack ------------------------------------------------------

  datatype Frame = Frame(id: RevisionId, expanded: bool)

  /**
   The depth-first stack. `owner[j]` is the frame whose expansion pushed frame `j`; nothing
   between the two is expanded, so the expanded frames, bottom to top, are one path of parent
   edges. An id is never pushed again above its own expanded frame.
   */
  ghost predicate IsDfsStack(g: Graph, target: set<RevisionId>, done: set<RevisionId>,
      onStack: set<RevisionId>, stack: seq<Frame>, owner: seq<int>)
  {
    && |owner| == |stack|
    && (forall j :: 0 <= j < |stack| ==> stack[j].id in target)
    && (forall j :: 0 < j < |stack| ==>
          0 <= owner[j] < j && stack[owner[j]].expanded && Edge(g, stack[owner[j]].id, stack[j].id))
    && (forall j, k :: 0 < j < |stack| && owner[j] < k < j ==> !stack[k].expanded)
    && (forall j :: 0 <= j < |stack| && stack[j].expanded ==> stack[j].id in onStack)
    && (forall x :: x in onStack ==> x in target && x !in done)
    && (forall x :: x in onStack ==> exists j :: 0 <= j < |stack| && stack[j].expanded && stack[j].id == x)
    && (forall i, j :: 0 <= i < j < |stack| && stack[i].expanded ==> stack[i].id != stack[j].id)
  }

  ghost predicate LiesAbove(stack: seq<Frame>, i: int, p: RevisionId) {
    exists j :: i < j < |stack| && 0 <= j && stack[j].id == p
  }

  /** The expanded frames below `limit` wait only for parents that are finished or lie above them. */
  ghost predicate Waiting(g: Graph, target: set<RevisionId>, done: set<RevisionId>, stack: seq<Frame>, limit: int)
    requires limit <= |stack|
  {
    forall i, p :: 0 <= i < limit && stack[i].expanded && Edge(g, stack[i].id, p) && p in target ==>
      p in done || LiesAbove(stack, i, p)
  }

  lemma LiesAbovePush(stack: seq<Frame>, f: Frame, i: int, p: RevisionId)
    ensures LiesAbove(stack + [f], i, p) <==> LiesAbove(stack, i, p) || (i < |stack| && f.id == p)
  {
    if LiesAbove(stack, i, p) {
      var j :| i < j < |stack| && 0 <= j && stack[j].id == p;
      assert (stack + [f])[j].id == p;
    }
    if i < |stack| && f.id == p {
      assert (stack + [f])[|stack|].id == p;
    }
  }

  /** Removing the top frame, which is finished or is being finished. */
  lemma PopKeeps(g: Graph, target: set<RevisionId>, done: set<RevisionId>, onStack: set<RevisionId>,
      stack: seq<Frame>, owner: seq<int>, done': set<RevisionId>)
    requires |stack| > 0
    requires IsDfsStack(g, target, done, onStack, stack, owner) && Waiting(g, target, done, stack, |stack|)
    requires var top := stack[|stack| - 1];
      (top.id in done && done' == done) || (top.expanded && done' == done + {top.id})
    ensures var top := |stack| - 1;
      && IsDfsStack(g, target, done', onStack - {stack[top].id}, stack[..top], owner[..top])
      && Waiting(g, target, done', stack[..top], top)
  {
    var top := |stack| - 1;
    var rest := stack[..top];
    forall i, p | 0 <= i < top && rest[i].expanded && Edge(g, rest[i].id, p) && p in target
      ensures p in done' || LiesAbove(rest, i, p)
    {
      assert stack[i].expanded && stack[i].id == rest[i].id;
      if p !in done {
        assert LiesAbove(stack, i, p);
        var j :| i < j < |stack| && 0 <= j && stack[j].id == p;
        if j < top {
          assert rest[j].id == p;
        }
      }
    }
    forall x | x in onStack - {stack[top].id}
      ensures exists j :: 0 <= j < |rest| && rest[j].expanded && rest[j].id == x
    {
      var j :| 0 <= j < |stack| && stack[j].expanded && stack[j].id == x;
      assert rest[j].expanded && rest[j].id == x;
    }
  }

  /** Marking the top frame expanded: it was not on the path before. */
  lemma ExpandKeeps(g: Graph, target: set<RevisionId>, done: set<RevisionId>, onStack: set<RevisionId>,
      stack: seq<Frame>, owner: seq<int>)
    requires |stack| > 0 && !stack[|stack| - 1].expanded && stack[|stack| - 1].id !in done
    requires IsDfsStack(g, target, done, onStack, stack, owner) && Waiting(g, target, done, stack, |stack|)
    ensures stack[|stack| - 1].id !in onStack
    ensures var top := |stack| - 1;
      var stack' := stack[top := Frame(stack[top].id, true)];
      && IsDfsStack(g, target, done, onStack + {stack[top].id}, stack', owner)
      && Waiting(g, target, done, stack', top)
  {
    hide Waiting, Edge;
    var top := |stack| - 1;
    var stack' := stack[top := Frame(stack[top].id, true)];
    ExpandKeepsWaiting(g, target, done, stack);
    forall x | x in onStack + {stack[top].id}
      ensures exists j :: 0 <= j < |stack'| && stack'[j].expanded && stack'[j].id == x
    {
      if x == stack[top].id {
        assert stack'[top].expanded && stack'[top].id == x;
      } else {
        var j :| 0 <= j < |stack| && stack[j].expanded && stack[j].id == x;
        assert stack'[j].expanded && stack'[j].id == x;
      }
    }
  }

  lemma ExpandKeepsWaiting(g: Graph, target: set<RevisionId>, done: set<RevisionId>, stack: seq<Frame>)
    requires |stack| > 0 && Waiting(g, target, done, stack, |stack|)
    ensures var top := |stack| - 1;
      Waiting(g, target, done, stack[top := Frame(stack[top].id, true)], top)
  {
    hide Edge;
    var top := |stack| - 1;
    var stack' := stack[top := Frame(stack[top].id, true)];
    forall i, p | 0 <= i < top && stack'[i].expanded && Edge(g, stack'[i].id, p) && p in target
      ensures p in done || LiesAbove(stack', i, p)
    {
      assert stack[i] == stack'[i];
      if p !in done {
        var j :| i < j < |stack| && 0 <= j && stack[j].id == p;
        assert stack'[j].id == p;
      }
    }
  }

  /** Pushing a parent of the expanded frame `top`, above which nothing is expanded. */
  lemma PushKeeps(g: Graph, target: set<RevisionId>, done: set<RevisionId>, onStack: set<RevisionId>,
      stack: seq<Frame>, owner: seq<int>, top: nat, parentId: RevisionId)
    requires top < |stack| && stack[top].expanded && Edge(g, stack[top].id, parentId)
    requires parentId in target && parentId !in onStack
    requires forall j :: top < j < |stack| ==> !stack[j].expanded
    requires IsDfsStack(g, target, done, onStack, stack, owner) && Waiting(g, target, done, stack, top)
    ensures IsDfsStack(g, target, done, onStack, stack + [Frame(parentId, false)], owner + [top])
    ensures Waiting(g, target, done, stack + [Frame(parentId, false)], top)
  {
    var stack' := stack + [Frame(parentId, false)];
    forall i, p | 0 <= i < top && stack'[i].expanded && Edge(g, stack'[i].id, p) && p in target
      ensures p in done || LiesAbove(stack', i, p)
    {
      assert stack[i] == stack'[i];
      LiesAbovePush(stack, Frame(parentId, false), i, p);
    }
    forall x | x in onStack
      ensures exists j :: 0 <= j < |stack'| && stack'[j].expanded && stack'[j].id == x
    {
      var j :| 0 <= j < |stack| && stack[j].expanded && stack[j].id == x;
      assert stack'[j].expanded && stack'[j].id == x;
    }
  }

  /** From an expanded frame the whole expanded path below it can be walked back. */
  lemma {:induction false} StackIsPath(g: Graph, target: set<RevisionId>, done: set<RevisionId>,
      onStack: set<RevisionId>, stack: seq<Frame>, owner: seq<int>, i: nat, t: nat)
    requires IsDfsStack(g, target, done, onStack, stack, owner)
    requires i <= t < |stack| && stack[i].expanded && stack[t].expanded
    ensures Reaches(Restrict(g, target), stack[t].id, stack[i].id)
    decreases t
  {
    var r := Restrict(g, target);
    if i == t {
      ReachesSelf(r, stack[i].id);
    } else {
      var o := owner[t];
      StackIsPath(g, target, done, onStack, stack, owner, i, o);
      assert Edge(r, stack[o].id, stack[t].id);
      ReachesParent(r, stack[o].id, stack[t].id);
      ReachesTransitive(r, stack[t].id, stack[o].id, stack[i].id);
    }
  }

  /** Keeps the first occurrence of each id: what `new Set(ids)` iterates over. */
  method Distinct(ids: seq<RevisionId>) returns (s: seq<RevisionId>)
    ensures NoDuplicates(s) && SeqToSet(s) == SeqToSet(ids)
  {
    s := [];
    for i := 0 to |ids|
      invariant NoDuplicates(s) && forall x :: x in s <==> x in ids[..i]
    {
      if ids[i] !in s {
        s := s + [ids[i]];
      }
    }
    assert ids[..|ids|] == ids;
  }

  /** Finding a parent on the path closes a cycle. */
  lemma ParentOnPathIsCycle(g: Graph, target: set<RevisionId>, done: set<RevisionId>, onStack: set<RevisionId>,
      stack: seq<Frame>, owner: seq<int>, top: nat, parentId: RevisionId)
    requires IsDfsStack(g, target, done, onStack, stack, owner)
    requires top < |stack| && stack[top].expanded && Edge(g, stack[top].id, parentId)
    requires forall j :: top < j < |stack| ==> !stack[j].expanded
    requires parentId in onStack
    ensures ProperAncestor(Restrict(g, target), parentId, parentId)
  {
    var r := Restrict(g, target);
    var x := stack[top].id;
    var i :| 0 <= i < |stack| && stack[i].expanded && stack[i].id == parentId;
    StackIsPath(g, target, done, onStack, stack, owner, i, top);
    assert Edge(r, x, parentId);
    ReachesSelf(r, parentId);
    assert ProperAncestor(r, parentId, x);
    ProperThenReaches(r, parentId, x, parentId);
  }

  /** The inner loop: pushes the unfinished in-target parents of the frame just expanded, or meets a cycle. */
  method PushParents(g: Graph, target: seq<RevisionId>, done: set<RevisionId>, onStack: set<RevisionId>,
      stack: seq<Frame>, ghost owner: seq<int>)
    returns (r: Result<seq<Frame>, RevisionId>, ghost owner': seq<int>)
    requires |stack| > 0 && stack[|stack| - 1].expanded && stack[|stack| - 1].id in g
    requires IsDfsStack(g, SeqToSet(target), done, onStack, stack, owner)
    requires Waiting(g, SeqToSet(target), done, stack, |stack| - 1)
    ensures r.Ok? ==> stack <= r.value
    ensures r.Ok? ==> IsDfsStack(g, SeqToSet(target), done, onStack, r.value, owner')
    ensures r.Ok? ==> Waiting(g, SeqToSet(target), done, r.value, |r.value|)
    ensures r.Err? ==> ProperAncestor(Restrict(g, SeqToSet(target)), r.error, r.error)
  {
    ghost var targets := SeqToSet(target);
    var top := |stack| - 1;
    var parents := g[stack[top].id];
    var s := stack;
    owner' := owner;
    for k := 0 to |parents|
      invariant stack <= s
      invariant forall j :: top < j < |s| ==> !s[j].expanded
      invariant IsDfsStack(g, targets, done, onStack, s, owner')
      invariant Waiting(g, targets, done, s, top)
      invariant forall p :: p in parents[..k] && p in targets ==> p in done || LiesAbove(s, top, p)
    {
      var parentId := parents[k];
      if parentId !in target || parentId in done {
        continue;
      }
      assert Edge(g, s[top].id, parentId);
      if parentId in onStack {
        ParentOnPathIsCycle(g, targets, done, onStack, s, owner', top, parentId);
        return Err(parentId), owner';
      }
      PushKeeps(g, targets, done, onStack, s, owner', top, parentId);
      forall p
        ensures LiesAbove(s + [Frame(parentId, false)], top, p) <==> LiesAbove(s, top, p) || parentId == p
      {
        LiesAbovePush(s, Frame(parentId, false), top, p);
      }
      s := s + [Frame(parentId, false)];
      owner' := owner' + [top];
    }
    assert parents[..|parents|] == parents;
    forall i, p | 0 <= i < |s| && s[i].expanded && Edge(g, s[i].id, p) && p in targets
      ensures p in done || LiesAbove(s, i, p)
    {
      if i == top {
        assert p in parents;
      }
    }
    r := Ok(s);
  }

  /**
   Each target once, parents first. It fails exactly when the targets contain a cycle, and
   then names a revision on one.
   */
  method Order(g: Graph, ids: seq<RevisionId>) returns (r: Result<seq<RevisionId>, RevisionId>)
    ensures r.Ok? ==> IsTopologicalOrder(g, SeqToSet(ids), r.value)
    ensures r.Err? ==> ProperAncestor(Restrict(g, SeqToSet(ids)), r.error, r.error)
    ensures r.Ok? <==> Acyclic(Restrict(g, SeqToSet(ids)))
  {
    var target := Distinct(ids);
    ghost var targets := SeqToSet(target);
    var ordered: seq<RevisionId> := [];
    var done: set<RevisionId> := {};
    var onStack: set<RevisionId> := {};
    for n := 0 to |target|
      invariant onStack == {}
      invariant NoDuplicates(ordered) && SeqToSet(ordered) == done <= targets
      invariant ParentsFirst(g, targets, ordered)
      invariant forall x :: x in target[..n] ==> x in done
    {
      if target[n] in done {
        continue;
      }
      var stack := [Frame(target[n], false)];
      ghost var owner := [-1];
      while |stack| > 0
        invariant IsDfsStack(g, targets, done, onStack, stack, owner)
        invariant Waiting(g, targets, done, stack, |stack|)
        invariant NoDuplicates(ordered) && SeqToSet(ordered) == done <= targets
        invariant ParentsFirst(g, targets, ordered)
        invariant forall x :: x in target[..n] ==> x in done
        invariant target[n] in done || (|stack| > 0 && stack[0].id == target[n])
        decreases targets - done - onStack, |stack|
      {
        var top := |stack| - 1;
        var frame := stack[top];
        if frame.id in done {
          PopKeeps(g, targets, done, onStack, stack, owner, done);
          stack, owner := stack[..top], owner[..top];
          onStack := onStack - {frame.id};
          continue;
        }
        if frame.expanded {
          PopKeeps(g, targets, done, onStack, stack, owner, done + {frame.id});
          ParentsOfTopDone(g, targets, done, stack);
          ParentsFirstAppend(g, targets, ordered, frame.id);
          stack, owner := stack[..top], owner[..top];
          onStack := onStack - {frame.id};
          done := done + {frame.id};
          ordered := ordered + [frame.id];
          continue;
        }
        ExpandKeeps(g, targets, done, onStack, stack, owner);
        stack := stack[top := Frame(frame.id, true)];
        onStack := onStack + {frame.id};
        if frame.id !in g {
          continue;
        }
        var pushed, owner' := PushParents(g, target, done, onStack, stack, owner);
        if pushed.Err? {
          assert pushed.error in Restrict(g, targets);
          return Err(pushed.error);
        }
        stack, owner := pushed.value, owner';
      }
    }
    assert target[..|target|] == target;
    OrderedIsAcyclic(g, targets, ordered);
    return Ok(ordered);
  }

  /** Nothing lies above the top frame, so all its in-target parents are finished. */
  lemma ParentsOfTopDone(g: Graph, target: set<RevisionId>, done: set<RevisionId>, stack: seq<Frame>)
    requires |stack| > 0 && stack[|stack| - 1].expanded && Waiting(g, target, done, stack, |stack|)
    ensures forall p :: Edge(g, stack[|stack| - 1].id, p) && p in target ==> p in done
  {
    var top := |stack| - 1;
    assert forall p :: LiesAbove(stack, top, p) ==> false;
  }

  lemma ParentsFirstAppend(g: Graph, target: set<RevisionId>, ordered: seq<RevisionId>, x: RevisionId)
    requires ParentsFirst(g, target, ordered)
    requires forall p :: Edge(g, x, p) && p in target ==> p in ordered
    ensures ParentsFirst(g, target, ordered + [x])
  {
    var longer := ordered + [x];
    forall j, p | 0 <= j < |longer| && Edge(g, longer[j], p) && p in target
      ensures p in longer[..j]
    {
      assert longer[..j] == ordered[..j];
      if j == |ordered| {
        assert longer[..j] == ordered;
      }
    }
  }

  // ---- an acyclic selection can always be ordered -----------------------

  /** The targets that have `x` properly behind them. */
  ghost function Behind(r: Graph, target: set<RevisionId>, x: RevisionId): set<RevisionId> {
    set d | d in target && ProperAncestor(r, x, d)
  }

  /** Some target is no other target's parent. */
  lemma {:induction false} YoungestExists(r: Graph, target: set<RevisionId>, x: RevisionId) returns (y: RevisionId)
    requires Acyclic(r) && x in target
    ensures y in target && Behind(r, target, y) == {}
    decreases Behind(r, target, x)
  {
    if c :| c in Behind(r, target, x) {
      forall d | d in Behind(r, target, c)
        ensures d in Behind(r, target, x)
      {
        ProperIsReaches(r, x, c);
        ReachesThenProper(r, x, c, d);
      }
      assert c in Behind(r, target, x) && c !in Behind(r, target, c);
      y := YoungestExists(r, target, c);
    } else {
      y := x;
    }
  }

  lemma {:induction false} OrderExists(g: Graph, target: set<RevisionId>) returns (ordered: seq<RevisionId>)
    requires Acyclic(Restrict(g, target))
    ensures IsTopologicalOrder(g, target, ordered)
    decreases target
  {
    var r := Restrict(g, target);
    if x :| x in target {
      var y := YoungestExists(r, target, x);
      var rest := target - {y};
      AcyclicSubgraph(Restrict(g, rest), r);
      var before := OrderExists(g, rest);
      ReachesSelf(r, y);
      assert forall z :: Edge(r, z, y) ==> ProperAncestor(r, y, z);
      assert forall z :: z in target && ProperAncestor(r, y, z) ==> z in Behind(r, target, y);
      assert forall z :: z in target ==> !Edge(g, z, y);
      assert y !in SeqToSet(before);
      ordered := before + [y];
      forall j, p | 0 <= j < |ordered| && Edge(g, ordered[j], p) && p in target
        ensures p in ordered[..j]
      {
        assert ordered[..j] == before[..j];
        if j == |before| {
          assert ordered[..j] == before;
          assert p in SeqToSet(before);
        } else {
          assert before[j] in SeqToSet(before);
        }
      }
      assert forall z :: z in SeqToSet(ordered) <==> z in SeqToSet(before) || z == y;
    } else {
      ordered := [];
    }
  }
}
