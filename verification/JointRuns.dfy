/**
 Whole runs of a joint session. A run that cannot go on has ended well on both devices exactly when
 no frame was dropped on the way; every run ends; and until a frame is dropped every run can be
 carried on to a good end.
 */
module JointRuns {
  import opened Basics
  import opened Store
  import opened EngineRuns
  import opened Session
  import opened TransferLink
  import opened JointSession
  import opened JointSafety
  import opened JointIngest
  import opened JointLoss
  import opened JointProgress

  ghost predicate BothFinished(w: World) {
    w.a.phase == Finished && w.b.phase == Finished
  }

  /** One of the first `n` steps delivered a frame to a full orphan list. */
  ghost predicate DroppedBy(ws: seq<World>, acts: seq<Act>, n: nat)
    requires |ws| == |acts| + 1 && n <= |acts|
  {
    exists i :: 0 <= i < n && Drops(ws[i], acts[i].who, acts[i].move)
  }

  lemma NothingLostAtFirst(st: Setting, w: World)
    requires Initial(st, w)
    ensures CursorsFit(w) && !AnyLost(st, w)
  {
    hide InStage;
  }

  /** What the world shows as lost is what was dropped on the way to it. */
  lemma {:induction false} LossRemembersDrops(st: Setting, ws: seq<World>, acts: seq<Act>, n: nat)
    requires GoodSetting(st) && IsRun(st, ws, acts) && n <= |acts|
    ensures CursorsFit(ws[n]) && (AnyLost(st, ws[n]) <==> DroppedBy(ws, acts, n))
  {
    hide Initial, Inv, GoodSetting, Step, AnyLost, Drops, Link;
    if n == 0 {
      NothingLostAtFirst(st, ws[0]);
    } else {
      LossRemembersDrops(st, ws, acts, n - 1);
      RunInv(st, ws, acts, n - 1);
      InvLinks(st, ws[n - 1]);
      assert Step(st, ws[n - 1], acts[n - 1].who, acts[n - 1].move) == Some(ws[n - 1 + 1]);
      LossIsDropping(st, ws[n - 1], acts[n - 1].who, acts[n - 1].move);
    }
  }

  ghost predicate Stuck(st: Setting, w: World)
    requires st.chunkBytes > 0
  {
    forall who, m :: Step(st, w, who, m).None?
  }

  lemma RestingMeansFinished(st: Setting, w: World)
    requires Inv(st, w) && CursorsFit(w) && !AnyLost(st, w) && st.chunkBytes > 0 && Stuck(st, w)
    ensures BothFinished(w)
  {
    hide Inv, Step, AnyLost, Drops;
    if !BothFinished(w) {
      var _, _ := NoDeadlock(st, w);
    }
  }

  /** A run that has come to rest left both devices finished if and only if no frame was dropped. */
  lemma RestingRunFinishedIff(st: Setting, ws: seq<World>, acts: seq<Act>)
    requires GoodSetting(st) && IsRun(st, ws, acts) && Stuck(st, ws[|acts|])
    ensures BothFinished(ws[|acts|]) <==> !DroppedBy(ws, acts, |acts|)
  {
    hide Initial, Inv, GoodSetting, Step, AnyLost, Drops, Link, DroppedBy, Stuck;
    var last := ws[|acts|];
    RunInv(st, ws, acts, |acts|);
    InvLinks(st, last);
    LossRemembersDrops(st, ws, acts, |acts|);
    LostIsUnfinished(st, last);
    if !AnyLost(st, last) {
      RestingMeansFinished(st, last);
    }
  }

  ghost predicate Follows(st: Setting, w: World, w': World)
    requires st.chunkBytes > 0
  {
    exists who, m :: Step(st, w, who, m) == Some(w')
  }

  /** No schedule runs for ever, drops or not. */
  lemma EveryRunEnds(st: Setting, schedule: nat -> World)
    requires GoodSetting(st) && Initial(st, schedule(0))
    ensures exists i: nat :: !Follows(st, schedule(i), schedule(i + 1))
  {
    hide Initial, Inv, Follows, Link, GoodSetting;
    InitialInv(st, schedule(0));
    InvCursors(st, schedule(0));
    var _ := EndsAfter(st, schedule, 0);
  }

  lemma {:induction false} EndsAfter(st: Setting, schedule: nat -> World, i: nat) returns (end: nat)
    requires Inv(st, schedule(i)) && st.chunkBytes > 0 && CursorsFit(schedule(i))
    ensures !Follows(st, schedule(end), schedule(end + 1))
    decreases RunBudget(schedule(i)), WorkBudget(st, schedule(i))
  {
    hide Inv, Step, RunBudget, WorkBudget, Link;
    if Follows(st, schedule(i), schedule(i + 1)) {
      var who, m :| Step(st, schedule(i), who, m) == Some(schedule(i + 1));
      StepKeeps(st, schedule(i), who, m);
      StepSpends(st, schedule(i), who, m);
      end := EndsAfter(st, schedule, i + 1);
    } else {
      end := i;
    }
  }

  /** A continuation of a run: steps none of which drops a frame. */
  ghost predicate CarriesOn(st: Setting, w: World, ws: seq<World>, acts: seq<Act>)
    requires st.chunkBytes > 0
  {
    && |ws| == |acts| + 1 && ws[0] == w
    && forall i :: 0 <= i < |acts| ==>
         Step(st, ws[i], acts[i].who, acts[i].move) == Some(ws[i + 1]) && !Drops(ws[i], acts[i].who, acts[i].move)
  }

  /** From a world in which nothing is lost, steps that drop nothing lead to the end. */
  lemma {:induction false} CanFinish(st: Setting, w: World) returns (ws: seq<World>, acts: seq<Act>)
    requires Inv(st, w) && CursorsFit(w) && st.chunkBytes > 0 && !AnyLost(st, w)
    ensures CarriesOn(st, w, ws, acts) && BothFinished(ws[|acts|])
    decreases RunBudget(w), WorkBudget(st, w)
  {
    hide Inv, Step, AnyLost, RunBudget, WorkBudget, Drops;
    if BothFinished(w) {
      ws, acts := [w], [];
    } else {
      var who, m := NoDeadlock(st, w);
      StepKeeps(st, w, who, m);
      StepSpends(st, w, who, m);
      LossIsDropping(st, w, who, m);
      var rest, more := CanFinish(st, Step(st, w, who, m).value);
      ws, acts := [w] + rest, [Act(who, m)] + more;
    }
  }

  /** Any run that has dropped nothing so far is the beginning of one that ends well. */
  lemma DropFreeRunCanFinish(st: Setting, ws: seq<World>, acts: seq<Act>) returns (ws': seq<World>, acts': seq<Act>)
    requires GoodSetting(st) && IsRun(st, ws, acts) && !DroppedBy(ws, acts, |acts|)
    ensures ws <= ws' && acts <= acts' && IsRun(st, ws', acts') && BothFinished(ws'[|acts'|])
    ensures !DroppedBy(ws', acts', |acts'|)
  {
    hide Initial, Inv, GoodSetting, Step, AnyLost, Drops, Link, DroppedBy, CarriesOn;
    var n := |acts|;
    RunInv(st, ws, acts, n);
    InvLinks(st, ws[n]);
    LossRemembersDrops(st, ws, acts, n);
    var more, steps := CanFinish(st, ws[n]);
    ws', acts' := Joined(st, ws, acts, more, steps);
  }

  lemma Joined(st: Setting, ws: seq<World>, acts: seq<Act>, more: seq<World>, steps: seq<Act>)
    returns (ws': seq<World>, acts': seq<Act>)
    requires st.chunkBytes > 0 && IsRun(st, ws, acts) && !DroppedBy(ws, acts, |acts|) && CarriesOn(st, ws[|acts|], more, steps)
    ensures ws <= ws' && acts <= acts' && IsRun(st, ws', acts') && ws'[|acts'|] == more[|steps|]
    ensures !DroppedBy(ws', acts', |acts'|)
  {
    hide Initial, Step, Drops;
    var n := |acts|;
    ws', acts' := ws[..n] + more, acts + steps;
    assert ws == ws'[..n + 1];
    forall i | 0 <= i < |acts'|
      ensures Step(st, ws'[i], acts'[i].who, acts'[i].move) == Some(ws'[i + 1]) && !Drops(ws'[i], acts'[i].who, acts'[i].move)
    {
      if i < n {
        assert ws'[i] == ws[i] && ws'[i + 1] == ws[i + 1] && acts'[i] == acts[i];
      } else {
        assert ws'[i] == more[i - n] && ws'[i + 1] == more[i - n + 1] && acts'[i] == steps[i - n];
      }
    }
  }
}
