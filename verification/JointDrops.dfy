/**
 Exactly when a session can drop a frame, and so when it is sure to finish. Sixty-four orphan places are
 enough for every schedule while no revision that one device has to send the other is cut into more than
 sixty-four chunks. If one is, some schedule delivers its frames before its header and drops one, and
 then the session comes to rest unfinished.
 */
module JointDrops {
  import opened Basics
  import opened Store
  import opened Engine
  import opened EngineRuns
  import opened Reachability
  import opened RemoteHistory
  import opened Framing
  import opened Chunks
  import opened Messages
  import opened Inbound
  import opened Session
  import TopologicalOrder
  import TransferConfluence
  import opened TransferLink
  import opened JointSession
  import opened JointSafety
  import opened JointTransfers
  import opened JointIngest
  import opened JointLoss
  import opened JointProgress
  import opened JointRuns
  import opened SessionOutcome

  // ---- what a session sends --------------------------------------------------------

  /** The head of the tables rests on the revision, and the peer does not hold it. */
  ghost predicate Sends(t: Tables, peer: Tables, v: VaultId, id: RevisionId) {
    && HeadOf(t, v).Some? && id in VaultGraph(t, v) && Reaches(VaultGraph(t, v), id, HeadOf(t, v).value)
    && id !in VaultGraph(peer, v)
  }

  /** Each of them is cut into at most as many chunks as there are orphan places. */
  ghost predicate SendsSmall(t: Tables, peer: Tables, v: VaultId, chunkBytes: nat)
    requires chunkBytes > 0
  {
    forall id :: Sends(t, peer, v, id) ==> ChunkCountFor(t.rows[id].sizeBytes, chunkBytes) <= MAX_ORPHAN_FRAMES
  }

  /** What both devices can see before they meet: neither lacks a large revision of the other's. */
  ghost predicate SmallSession(st: Setting)
    requires st.chunkBytes > 0
  {
    && SendsSmall(st.a.tables, st.b.tables, st.v, st.chunkBytes)
    && SendsSmall(st.b.tables, st.a.tables, st.v, st.chunkBytes)
  }

  lemma WantedIffSends(d: Disk, peer: Disk, v: VaultId, wanted: seq<RevisionId>, id: RevisionId)
    requires WantFacts(peer, d, v, wanted)
    ensures id in wanted <==> Sends(d.tables, peer.tables, v, id)
  {
    hide Reaches, NoDuplicates, TopologicalOrder.ParentsFirst;
  }

  // ---- small revisions -------------------------------------------------------------

  /** A frame that meets a full list has sixty-four before it, all of one revision. */
  lemma DropNeedsSixtyFive(disk: Disk, chunkBytes: nat, s: SenderView, r: ReceiverView)
    requires chunkBytes > 0 && Link(disk, chunkBytes, s, r) && DropsNext(s, r)
    ensures s.outgoing.Some? && s.outgoing.value.revisionId in r.wanted && s.outgoing.value.revisionId in disk.tables.rows
    ensures ChunkCountFor(disk.tables.rows[s.outgoing.value.revisionId].sizeBytes, chunkBytes) > MAX_ORPHAN_FRAMES
  {
    hide HasFirst, HasGap, SlicesOf, FramesFrom;
    OrphansMeanHeaderAhead(disk, chunkBytes, s, r);
  }

  lemma OrphansMeanHeaderAhead(disk: Disk, chunkBytes: nat, s: SenderView, r: ReceiverView)
    requires chunkBytes > 0 && Link(disk, chunkBytes, s, r) && r.receiver.orphans != []
    ensures s.outgoing.Some? && s.outgoing.value.revisionId in disk.tables.rows
    ensures 0 <= Delivered(s, s.outgoing.value) <= s.outgoing.value.nextChunk <= |s.outgoing.value.slices|
    ensures InStage(disk, s, s.outgoing.value, r, HeaderOnTheWay)
  {
    hide TransferConfluence.Partial, SlicesOf, FramesFrom;
  }

  lemma SmallDropsNothingA(st: Setting, w: World, m: Move)
    requires Inv(st, w) && StepA(st, w, m).Some? && SendsSmall(st.b.tables, st.a.tables, st.v, st.chunkBytes)
    ensures !DropsA(w, m)
  {
    hide Inv, Link, StepA, WantFacts, Sends;
    InvLinks(st, w);
    if DropsA(w, m) {
      var s, r := SenderOf(w.b, w.aCtl, w.aBulk), ReceiverOf(w.a, w.bCtl);
      assert s.inFlight[0] == w.b.bulkOut[w.aBulk];
      DropNeedsSixtyFive(st.b, st.chunkBytes, s, r);
      WantedIsSent(st, w, s.outgoing.value.revisionId);
      assert false;
    }
  }

  lemma WantedIsSent(st: Setting, w: World, id: RevisionId)
    requires Inv(st, w) && id in w.a.wanted
    ensures Sends(st.b.tables, st.a.tables, st.v, id)
  {
    hide Inv, Link, Sound, VaultClosed, RowsAgree, SizeFaithful, StoreFacts, WantFacts, Sends;
    InvParts(st, w);
    WantedRank(st, w);
    WantedIffSends(st.b, st.a, st.v, w.a.wanted, id);
  }

  lemma WantedRank(st: Setting, w: World)
    requires Inv(st, w) && w.a.wanted != []
    ensures Rank(w.a.phase) >= 5
  {
    hide StoreFacts, OutScript, AfterWants, HeadHeard, InboxHolds, ExpectedFacts, Link, CompletionFacts, GoodSetting;
  }

  /** No schedule of a session over small revisions drops a frame. */
  lemma {:induction false} SmallSessionDropsNothing(st: Setting, ws: seq<World>, acts: seq<Act>, n: nat)
    requires GoodSetting(st) && IsRun(st, ws, acts) && n <= |acts| && SmallSession(st)
    ensures !DroppedBy(ws, acts, n)
  {
    hide Initial, Inv, GoodSetting, Link, DropsA, StepA, SendsSmall;
    if n > 0 {
      SmallSessionDropsNothing(st, ws, acts, n - 1);
      var w, act := ws[n - 1], acts[n - 1];
      RunInv(st, ws, acts, n - 1);
      InvLinks(st, w);
      assert Step(st, w, act.who, act.move) == Some(ws[n - 1 + 1]);
      if act.who == DeviceA {
        SmallDropsNothingA(st, w, act.move);
      } else {
        InvSwaps(st, w);
        SmallDropsNothingA(SwappedSetting(st), Swapped(w), act.move);
      }
    }
  }

  // ---- a large revision ------------------------------------------------------------

  /** A's header is still unread while `k` of its frames have been pushed and delivered. */
  ghost predicate Overtaken(st: Setting, w: World, k: nat) {
    && Inv(st, w) && CursorsFit(w) && st.chunkBytes > 0
    && w.a.outgoing.Some? && w.a.outgoing.value.nextChunk == k && |w.a.outgoing.value.slices| > MAX_ORPHAN_FRAMES
    && w.bBulk == |w.a.bulkOut| && Headers(w.a.out[w.bCtl..]) != []
  }

  /** The last of the steps is a drop. */
  ghost predicate LeadsToDrop(st: Setting, w: World, ws: seq<World>, acts: seq<Act>)
    requires st.chunkBytes > 0
  {
    && |ws| == |acts| + 1 && |acts| > 0 && ws[0] == w
    && (forall i :: 0 <= i < |acts| ==> Step(st, ws[i], acts[i].who, acts[i].move) == Some(ws[i + 1]))
    && Drops(ws[|acts| - 1], acts[|acts| - 1].who, acts[|acts| - 1].move)
  }

  lemma OrphansWait(disk: Disk, chunkBytes: nat, s: SenderView, r: ReceiverView)
    requires chunkBytes > 0 && Link(disk, chunkBytes, s, r) && s.outgoing.Some? && s.headers != []
    ensures s.active && s.outgoing.value.ack == None && r.receiver.assemblers == map[]
    ensures |s.inFlight| <= s.outgoing.value.nextChunk
    ensures |r.receiver.orphans| == Min(s.outgoing.value.nextChunk - |s.inFlight|, MAX_ORPHAN_FRAMES)
  {
    hide HasFirst, HasGap, Serves, FramesFrom;
  }

  lemma ServingPhase(st: Setting, w: World)
    requires Inv(st, w) && w.a.outgoing.Some? && Active(w.a)
    ensures w.a.phase == Transferring
  {
    hide StoreFacts, AfterWants, HeadHeard, InboxHolds, ExpectedFacts, Link, CompletionFacts, GoodSetting, SummaryFits, IsHistory;
  }

  /** Push one more frame and deliver it before the header. */
  lemma OvertakeOnce(st: Setting, w: World, k: nat) returns (w1: World, w2: World)
    requires Overtaken(st, w, k) && k <= MAX_ORPHAN_FRAMES
    ensures Step(st, w, DeviceA, ServeMove) == Some(w1) && Step(st, w1, DeviceB, BulkMove) == Some(w2)
    ensures Drops(w1, DeviceB, BulkMove) <==> k == MAX_ORPHAN_FRAMES
    ensures Overtaken(st, w2, k + 1)
  {
    hide Inv, Link, StepA, OnFrame, Headers, Acks;
    w1 := PushOne(st, w, k);
    var st', u := SwappedSetting(st), Swapped(w1);
    InvSwaps(st, w1);
    ServingNeedsWants(st', u);
    BulkLoses(st', u);
    w2 := Swapped(StepA(st', u, BulkMove).value);
    OrphansAre(st, w1);
    assert Swapped(u) == w1;
    StepKeeps(st, w1, DeviceB, BulkMove);
  }

  lemma OrphansAre(st: Setting, w: World)
    requires Inv(st, w) && CursorsFit(w) && w.a.outgoing.Some? && Headers(w.a.out[w.bCtl..]) != []
    ensures w.b.receiver.assemblers == map[] && |w.a.bulkOut| - w.bBulk <= w.a.outgoing.value.nextChunk
    ensures |w.b.receiver.orphans| == Min(w.a.outgoing.value.nextChunk - (|w.a.bulkOut| - w.bBulk), MAX_ORPHAN_FRAMES)
  {
    hide Inv, Link, Headers, Acks;
    InvLinks(st, w);
    OrphansWait(st.a, st.chunkBytes, SenderOf(w.a, w.bCtl, w.bBulk), ReceiverOf(w.b, w.aCtl));
  }

  lemma PushOne(st: Setting, w: World, k: nat) returns (w1: World)
    requires Overtaken(st, w, k) && k <= MAX_ORPHAN_FRAMES
    ensures Step(st, w, DeviceA, ServeMove) == Some(w1) && Inv(st, w1)
    ensures w1 == w.(a := w1.a) && w1.a.out == w.a.out && |w1.a.bulkOut| == |w.a.bulkOut| + 1
    ensures w1.a.outgoing == Some(w.a.outgoing.value.(nextChunk := k + 1)) && Active(w1.a)
  {
    hide Inv, Link, Headers, Acks, SlicesOf, StepA, GoodSetting;
    InvLinks(st, w);
    OrphansWait(st.a, st.chunkBytes, SenderOf(w.a, w.bCtl, w.bBulk), ReceiverOf(w.b, w.aCtl));
    ServingPhase(st, w);
    PushEnabled(st, w);
    w1 := StepA(st, w, ServeMove).value;
    ServeOnIs(st, w);
    StepAKeeps(st, w, ServeMove);
  }

  lemma PushEnabled(st: Setting, w: World)
    requires st.chunkBytes > 0 && w.a.phase == Transferring && w.a.outgoing.Some?
    requires w.a.outgoing.value.nextChunk < |w.a.outgoing.value.slices|
    ensures StepA(st, w, ServeMove).Some? && StepA(st, w, ServeMove).value.a.out == w.a.out
  {
    hide SlicesOf;
  }

  lemma {:induction false} OvertakeToDrop(st: Setting, w: World, k: nat) returns (ws: seq<World>, acts: seq<Act>)
    requires Overtaken(st, w, k) && k <= MAX_ORPHAN_FRAMES
    ensures LeadsToDrop(st, w, ws, acts)
    decreases MAX_ORPHAN_FRAMES - k
  {
    hide Inv, Step, Drops, Overtaken;
    var w1, w2 := OvertakeOnce(st, w, k);
    var first := [Act(DeviceA, ServeMove), Act(DeviceB, BulkMove)];
    if k == MAX_ORPHAN_FRAMES {
      ws, acts := [w, w1, w2], first;
    } else {
      var rest, more := OvertakeToDrop(st, w2, k + 1);
      ws, acts := [w, w1] + rest, first + more;
    }
  }

  /** Whenever a device is about to serve a revision of more than sixty-four chunks, some schedule drops one of its frames. */
  lemma LargeRevisionCanBeDropped(st: Setting, w: World) returns (ws: seq<World>, acts: seq<Act>)
    requires Inv(st, w) && w.a.phase == Transferring && w.a.outgoing.None? && w.a.toServe != []
    requires w.a.toServe[0] in st.a.tables.rows && st.chunkBytes > 0
    requires ChunkCountFor(st.a.tables.rows[w.a.toServe[0]].sizeBytes, st.chunkBytes) > MAX_ORPHAN_FRAMES
    ensures LeadsToDrop(st, w, ws, acts)
  {
    hide Inv, Step, Drops, Overtaken;
    var w1 := AnnounceLarge(st, w);
    var rest, more := OvertakeToDrop(st, w1, 0);
    ws, acts := [w] + rest, [Act(DeviceA, ServeMove)] + more;
  }

  lemma AnnounceLarge(st: Setting, w: World) returns (w1: World)
    requires Inv(st, w) && w.a.phase == Transferring && w.a.outgoing.None? && w.a.toServe != []
    requires w.a.toServe[0] in st.a.tables.rows && st.chunkBytes > 0
    requires ChunkCountFor(st.a.tables.rows[w.a.toServe[0]].sizeBytes, st.chunkBytes) > MAX_ORPHAN_FRAMES
    ensures Step(st, w, DeviceA, ServeMove) == Some(w1) && Overtaken(st, w1, 0)
  {
    hide Inv, Link, Headers, Acks, SlicesOf, StepA;
    NextToServe(st, w);
    w1 := StartServing(st, w);
    StepAKeeps(st, w, ServeMove);
    InvLinks(st, w1);
  }

  lemma StartServing(st: Setting, w: World) returns (w1: World)
    requires Inv(st, w) && w.a.phase == Transferring && w.a.outgoing.None? && w.a.toServe != []
    requires w.a.toServe[0] in st.a.tables.rows && st.a.tables.rows[w.a.toServe[0]].hash in st.a.blobs && st.chunkBytes > 0
    ensures StepA(st, w, ServeMove) == Some(w1) && w1 == w.(a := w1.a) && w1.a.bulkOut == w.a.bulkOut
    ensures w1.a.outgoing.Some? && w1.a.outgoing.value.nextChunk == 0
    ensures w1.a.outgoing.value.slices == SlicesOf(BytesOf(st.a, w.a.toServe[0]), st.chunkBytes)
    ensures w.bCtl <= |w.a.out| <= |w1.a.out| && Headers(w1.a.out[w.bCtl..]) != [] && w.bBulk == |w.a.bulkOut|
  {
    hide Inv, Link, Headers, Acks, SlicesOf, ServeStep, HeaderFor, BytesOf, StepA;
    InvLinks(st, w);
    var h;
    w1, h := Announced(st, w);
    SendReads(w.a.out, w.bCtl, RevisionHeader(h));
    IdleAllDelivered(st.a, st.chunkBytes, SenderOf(w.a, w.bCtl, w.bBulk), ReceiverOf(w.b, w.aCtl));
    assert |w.a.bulkOut[w.bBulk..]| == 0;
  }

  lemma Announced(st: Setting, w: World) returns (w1: World, h: Header)
    requires Inv(st, w) && w.a.phase == Transferring && w.a.outgoing.None? && w.a.toServe != []
    requires w.a.toServe[0] in st.a.tables.rows && st.a.tables.rows[w.a.toServe[0]].hash in st.a.blobs && st.chunkBytes > 0
    ensures StepA(st, w, ServeMove) == Some(w1)
    ensures w1 == w.(a := Send(w.a, RevisionHeader(h)).(toServe := w.a.toServe[1..], transferSeq := w.a.transferSeq + 1,
      outgoing := Some(Outgoing(w.a.toServe[0], w.a.transferSeq + 1, SlicesOf(BytesOf(st.a, w.a.toServe[0]), st.chunkBytes), 0, None))))
  {
    hide Inv, SlicesOf, ServeStep, HeaderFor;
    NextToServe(st, w);
    var id := w.a.toServe[0];
    var slices := SlicesOf(BytesOf(st.a, id), st.chunkBytes);
    h := HeaderFor(w.a.disk.tables, id, w.a.transferSeq + 1, |slices|);
    ServeStarts(st.chunkBytes, w.a, h, slices);
    w1 := w.(a := ServeStep(st.chunkBytes, w.a).value);
  }

  lemma IdleAllDelivered(d: Disk, chunkBytes: nat, s: SenderView, r: ReceiverView)
    requires chunkBytes > 0 && Link(d, chunkBytes, s, r) && s.outgoing.None?
    ensures s.inFlight == []
  {
    hide Serving;
  }

  // ---- how a session comes to it ---------------------------------------------------

  /** The revision has been served, or is being served. */
  ghost predicate TakenUp(x: Side, id: RevisionId) {
    id in x.sent || (x.outgoing.Some? && x.outgoing.value.revisionId == id)
  }

  ghost predicate NextInLine(x: Side, id: RevisionId) {
    x.phase == Transferring && x.outgoing.None? && x.toServe != [] && x.toServe[0] == id
  }

  lemma ServeTakesUp(chunkBytes: nat, x: Side, id: RevisionId)
    requires chunkBytes > 0 && ServeStep(chunkBytes, x).Some? && !TakenUp(x, id) && !NextInLine(x, id)
    ensures !TakenUp(ServeStep(chunkBytes, x).value, id)
  {
    hide SlicesOf, HeaderFor;
  }

  lemma ControlTakesUp(x: Side, m: Message, id: RevisionId)
    ensures TakenUp(OnControl(x, m), id) <==> TakenUp(x, id)
  {
    hide OnHeader, RejectAll;
    if m.RevisionHeader? {
      var r := OnHeader(x.receiver, m.header);
      RejectAllFrame(x.(receiver := r.(refused := [])), r.refused);
    }
  }

  lemma BulkTakesUp(x: Side, f: ChunkFrame, id: RevisionId)
    ensures TakenUp(OnBulk(x, f), id) <==> TakenUp(x, id)
  {
    hide OnFrame, RejectAll;
    var r := OnFrame(x.receiver, f);
    RejectAllFrame(x.(receiver := r.(refused := [])), r.refused);
  }

  lemma IngestTakesUp(sha: Digest, x: Side, id: RevisionId)
    requires IngestStep(sha, x).Some?
    ensures TakenUp(IngestStep(sha, x).value, id) <==> TakenUp(x, id)
  {
    hide IngestReceivedRevision, Replay;
  }

  /** Only serving takes up a revision, and only the next in line. */
  lemma StepATakesUp(st: Setting, w: World, m: Move, id: RevisionId)
    requires st.chunkBytes > 0 && StepA(st, w, m).Some? && w.a.hello.Hello? && !TakenUp(w.a, id) && !NextInLine(w.a, id)
    ensures !TakenUp(StepA(st, w, m).value.a, id)
  {
    hide RunStep, ServeStep, IngestStep, OnControl, OnBulk, NextInLine, SaysNoTransfer;
    match m
    case RunMove(c) => RunStepFrame(st.sha, w.a, c);
    case ServeMove => ServeTakesUp(st.chunkBytes, w.a, id);
    case IngestMove => IngestTakesUp(st.sha, w.a, id);
    case ControlMove => ControlTakesUp(w.a, w.b.out[w.aCtl], id);
    case BulkMove => BulkTakesUp(w.a, w.b.bulkOut[w.aBulk], id);
  }

  lemma OtherStays(st: Setting, w: World, m: Move)
    requires st.chunkBytes > 0 && Step(st, w, DeviceB, m).Some?
    ensures Step(st, w, DeviceB, m).value.a == w.a
  {
    hide RunStep, ServeStep, IngestStep, OnControl, OnBulk;
  }

  lemma NotTakenUp(st: Setting, w: World, who: Who, m: Move, id: RevisionId)
    requires Inv(st, w) && st.chunkBytes > 0 && Step(st, w, who, m).Some? && !TakenUp(w.a, id) && !NextInLine(w.a, id)
    ensures !TakenUp(Step(st, w, who, m).value.a, id)
  {
    hide Inv, StepA, TakenUp, NextInLine;
    InvRank(st, w);
    if who == DeviceA {
      StepATakesUp(st, w, m, id);
    } else {
      OtherStays(st, w, m);
    }
  }

  /** Both finished: what A had to send was sent. */
  lemma FinishedHasSent(st: Setting, w: World, id: RevisionId)
    requires Inv(st, w) && BothFinished(w) && Sends(st.a.tables, st.b.tables, st.v, id)
    ensures id in w.a.sent
  {
    hide Inv, WantFacts, HoldsHistoryOf, Sends;
    InvSwaps(st, w);
    HalfDelivered(SwappedSetting(st), Swapped(w));
    WantedIffSends(st.a, st.b, st.v, w.b.wanted, id);
  }

  /** From any world in which nothing is lost and a large revision is still to be served, some schedule drops a frame of it. */
  lemma {:induction false} LargeWillBeDropped(st: Setting, w: World, id: RevisionId) returns (ws: seq<World>, acts: seq<Act>)
    requires Inv(st, w) && CursorsFit(w) && st.chunkBytes > 0 && !AnyLost(st, w)
    requires Sends(st.a.tables, st.b.tables, st.v, id) && !TakenUp(w.a, id)
    requires ChunkCountFor(st.a.tables.rows[id].sizeBytes, st.chunkBytes) > MAX_ORPHAN_FRAMES
    ensures LeadsToDrop(st, w, ws, acts)
    decreases RunBudget(w), WorkBudget(st, w)
  {
    hide Inv, Step, AnyLost, RunBudget, WorkBudget, Drops, Reaches;
    if NextInLine(w.a, id) {
      ws, acts := LargeRevisionCanBeDropped(st, w);
    } else if BothFinished(w) {
      FinishedHasSent(st, w, id);
      assert false;
    } else {
      var who, m := NoDeadlock(st, w);
      StepKeeps(st, w, who, m);
      StepSpends(st, w, who, m);
      LossIsDropping(st, w, who, m);
      NotTakenUp(st, w, who, m, id);
      var rest, more := LargeWillBeDropped(st, Step(st, w, who, m).value, id);
      ws, acts := [w] + rest, [Act(who, m)] + more;
    }
  }

  // ---- the other device ------------------------------------------------------------

  function SwappedAct(a: Act): Act {
    a.(who := if a.who == DeviceA then DeviceB else DeviceA)
  }

  lemma StepSwaps(st: Setting, w: World, a: Act, w': World)
    requires st.chunkBytes > 0 && Step(SwappedSetting(st), Swapped(w), a.who, a.move) == Some(Swapped(w'))
    ensures var b := SwappedAct(a);
      Step(st, w, b.who, b.move) == Some(w') && (Drops(w, b.who, b.move) <==> Drops(Swapped(w), a.who, a.move))
  {
    hide StepA, DropsA;
    assert SwappedSetting(SwappedSetting(st)) == st && Swapped(Swapped(w)) == w && Swapped(Swapped(w')) == w';
  }

  lemma LeadSwaps(st: Setting, w: World, ws: seq<World>, acts: seq<Act>) returns (us: seq<World>, bs: seq<Act>)
    requires st.chunkBytes > 0 && LeadsToDrop(SwappedSetting(st), Swapped(w), ws, acts)
    ensures LeadsToDrop(st, w, us, bs)
  {
    hide Step, Drops;
    us, bs := seq(|ws|, i requires 0 <= i < |ws| => Swapped(ws[i])), seq(|acts|, i requires 0 <= i < |acts| => SwappedAct(acts[i]));
    forall i | 0 <= i < |acts|
      ensures Step(st, us[i], bs[i].who, bs[i].move) == Some(us[i + 1])
      ensures Drops(us[i], bs[i].who, bs[i].move) <==> Drops(ws[i], acts[i].who, acts[i].move)
    {
      assert Swapped(us[i]) == ws[i] && Swapped(us[i + 1]) == ws[i + 1];
      StepSwaps(st, us[i], acts[i], us[i + 1]);
    }
  }

  // ---- from the start to rest ------------------------------------------------------

  /** Unless the session is small, some run from its start drops a frame. */
  lemma LargeSessionCanDrop(st: Setting, w: World) returns (ws: seq<World>, acts: seq<Act>)
    requires GoodSetting(st) && Initial(st, w) && !SmallSession(st)
    ensures IsRun(st, ws, acts) && ws[0] == w && DroppedBy(ws, acts, |acts|)
  {
    hide Inv, Step, AnyLost, GoodSetting, Drops, Sends, SendsSmall;
    InitialInv(st, w);
    InvLinks(st, w);
    NothingLostAtFirst(st, w);
    NothingTakenUpAtFirst(st, w);
    if !SendsSmall(st.a.tables, st.b.tables, st.v, st.chunkBytes) {
      var id := LargeSent(st.a.tables, st.b.tables, st.v, st.chunkBytes);
      ws, acts := LargeWillBeDropped(st, w, id);
    } else {
      var id := LargeSent(st.b.tables, st.a.tables, st.v, st.chunkBytes);
      InvSwaps(st, w);
      SwappedLoss(st, w);
      var us, bs := LargeWillBeDropped(SwappedSetting(st), Swapped(w), id);
      ws, acts := LeadSwaps(st, w, us, bs);
    }
  }

  lemma LargeSent(t: Tables, peer: Tables, v: VaultId, chunkBytes: nat) returns (id: RevisionId)
    requires chunkBytes > 0 && !SendsSmall(t, peer, v, chunkBytes)
    ensures Sends(t, peer, v, id) && id in t.rows && ChunkCountFor(t.rows[id].sizeBytes, chunkBytes) > MAX_ORPHAN_FRAMES
  {
    hide Reaches;
    id :| Sends(t, peer, v, id) && ChunkCountFor(t.rows[id].sizeBytes, chunkBytes) > MAX_ORPHAN_FRAMES;
  }

  lemma NothingTakenUpAtFirst(st: Setting, w: World)
    requires Initial(st, w)
    ensures forall id :: !TakenUp(w.a, id) && !TakenUp(w.b, id)
  {
  }

  lemma SwappedLoss(st: Setting, w: World)
    requires CursorsFit(w)
    ensures CursorsFit(Swapped(w)) && (AnyLost(SwappedSetting(st), Swapped(w)) <==> AnyLost(st, w))
  {
    hide LostFromA;
    assert SwappedSetting(SwappedSetting(st)) == st && Swapped(Swapped(w)) == w;
  }

  /** Steps that lead from a world to one that can go no further. */
  ghost predicate LeadsToRest(st: Setting, w: World, ws: seq<World>, acts: seq<Act>)
    requires st.chunkBytes > 0
  {
    && |ws| == |acts| + 1 && ws[0] == w && Stuck(st, ws[|acts|])
    && forall i :: 0 <= i < |acts| ==> Step(st, ws[i], acts[i].who, acts[i].move) == Some(ws[i + 1])
  }

  lemma {:induction false} ComesToRest(st: Setting, w: World) returns (ws: seq<World>, acts: seq<Act>)
    requires Inv(st, w) && st.chunkBytes > 0 && CursorsFit(w)
    ensures LeadsToRest(st, w, ws, acts)
    decreases RunBudget(w), WorkBudget(st, w)
  {
    hide Inv, Step, RunBudget, WorkBudget, Link;
    if who, m :| Step(st, w, who, m).Some? {
      StepKeeps(st, w, who, m);
      StepSpends(st, w, who, m);
      var rest, more := ComesToRest(st, Step(st, w, who, m).value);
      ws, acts := [w] + rest, [Act(who, m)] + more;
    } else {
      ws, acts := [w], [];
    }
  }

  /** Every run can be carried on until it comes to rest; what was dropped stays dropped. */
  lemma RunComesToRest(st: Setting, ws: seq<World>, acts: seq<Act>) returns (ws': seq<World>, acts': seq<Act>)
    requires GoodSetting(st) && IsRun(st, ws, acts)
    ensures IsRun(st, ws', acts') && ws <= ws' && acts <= acts' && Stuck(st, ws'[|acts'|])
    ensures DroppedBy(ws, acts, |acts|) ==> DroppedBy(ws', acts', |acts'|)
  {
    hide Inv, Step, GoodSetting, Initial, Link, Stuck, Drops;
    var n := |acts|;
    RunInv(st, ws, acts, n);
    InvCursors(st, ws[n]);
    var more, steps := ComesToRest(st, ws[n]);
    ws', acts' := ws[..n] + more, acts + steps;
    assert ws == ws'[..n + 1];
    forall i | 0 <= i < |acts'|
      ensures Step(st, ws'[i], acts'[i].who, acts'[i].move) == Some(ws'[i + 1])
    {
      if i >= n {
        assert ws'[i] == more[i - n] && ws'[i + 1] == more[i - n + 1] && acts'[i] == steps[i - n];
      }
    }
    if i :| 0 <= i < n && Drops(ws[i], acts[i].who, acts[i].move) {
      assert Drops(ws'[i], acts'[i].who, acts'[i].move);
    }
  }

  /** A run from `w` that drops a frame, comes to rest, and leaves some device unfinished. */
  lemma LargeSessionCanStall(st: Setting, w: World) returns (ws: seq<World>, acts: seq<Act>)
    requires GoodSetting(st) && Initial(st, w) && !SmallSession(st)
    ensures IsRun(st, ws, acts) && ws[0] == w && DroppedBy(ws, acts, |acts|)
    ensures Stuck(st, ws[|acts|]) && !BothFinished(ws[|acts|])
  {
    hide Step, GoodSetting, Initial, Stuck, SmallSession, DroppedBy;
    var us, bs := LargeSessionCanDrop(st, w);
    ws, acts := RunComesToRest(st, us, bs);
    RestingRunFinishedIff(st, ws, acts);
  }

  ghost predicate SomeRunDrops(st: Setting, w: World)
    requires st.chunkBytes > 0
  {
    exists ws, acts :: IsRun(st, ws, acts) && ws[0] == w && DroppedBy(ws, acts, |acts|)
  }

  /** Whatever the schedule, once nothing more can happen both devices have finished. */
  ghost predicate AlwaysFinishes(st: Setting, w: World)
    requires st.chunkBytes > 0
  {
    forall ws, acts :: IsRun(st, ws, acts) && ws[0] == w && Stuck(st, ws[|acts|]) ==> BothFinished(ws[|acts|])
  }

  /** Some schedule drops a frame exactly if one device has to send the other a large revision. */
  lemma SomeRunDropsIff(st: Setting, w: World)
    requires GoodSetting(st) && Initial(st, w)
    ensures SomeRunDrops(st, w) <==> !SmallSession(st)
  {
    hide Inv, Step, GoodSetting, Initial, SmallSession, DroppedBy;
    InitialInv(st, w);
    InvLinks(st, w);
    if SmallSession(st) {
      forall ws, acts | IsRun(st, ws, acts) && ws[0] == w
        ensures !DroppedBy(ws, acts, |acts|)
      {
        SmallSessionDropsNothing(st, ws, acts, |acts|);
      }
    } else {
      var _, _ := LargeSessionCanDrop(st, w);
    }
  }

  /** A session is sure to finish on both devices if and only if all it has to send is small. */
  lemma SessionFinishesIff(st: Setting, w: World)
    requires GoodSetting(st) && Initial(st, w)
    ensures AlwaysFinishes(st, w) <==> SmallSession(st)
  {
    hide Inv, Step, GoodSetting, Initial, SmallSession, DroppedBy, Stuck, BothFinished;
    InitialInv(st, w);
    InvLinks(st, w);
    if SmallSession(st) {
      forall ws, acts | IsRun(st, ws, acts) && ws[0] == w && Stuck(st, ws[|acts|])
        ensures BothFinished(ws[|acts|])
      {
        SmallSessionDropsNothing(st, ws, acts, |acts|);
        RestingRunFinishedIff(st, ws, acts);
      }
    } else {
      var _, _ := LargeSessionCanStall(st, w);
    }
  }
}
