/**
 Dropped frames in a joint session. A frame is lost exactly when it is delivered to a full orphan list,
 before its header; once that has happened the sending device never finishes.
 */
module JointLoss {
  import opened Basics
  import opened Store
  import opened Engine
  import opened EngineRuns
  import opened RemoteHistory
  import opened Framing
  import opened Chunks
  import opened Messages
  import opened Inbound
  import opened Session
  import opened TransferLink
  import opened JointSession
  import opened JointSafety
  import opened JointTransfers
  import opened JointIngest

  /** Something A sent has been lost on the way to B. */
  ghost predicate LostFromA(st: Setting, w: World)
    requires w.bCtl <= |w.a.out| && w.bBulk <= |w.a.bulkOut| && w.aCtl <= |w.b.out|
  {
    Lost(st.a, SenderOf(w.a, w.bCtl, w.bBulk), ReceiverOf(w.b, w.aCtl))
  }

  ghost predicate CursorsFit(w: World) {
    w.aCtl <= |w.b.out| && w.bCtl <= |w.a.out| && w.aBulk <= |w.b.bulkOut| && w.bBulk <= |w.a.bulkOut|
  }

  ghost predicate AnyLost(st: Setting, w: World)
    requires CursorsFit(w)
  {
    LostFromA(st, w) || LostFromA(SwappedSetting(st), Swapped(w))
  }

  /** The step delivers a frame that the receiver drops. */
  ghost predicate DropsA(w: World, m: Move) {
    m.BulkMove? && w.aBulk < |w.b.bulkOut| && w.b.bulkOut[w.aBulk].transferSeq !in w.a.receiver.assemblers
    && |w.a.receiver.orphans| >= MAX_ORPHAN_FRAMES
  }

  ghost predicate Drops(w: World, who: Who, m: Move) {
    DropsA(if who == DeviceA then w else Swapped(w), m)
  }

  lemma InvCursors(st: Setting, w: World)
    requires Inv(st, w)
    ensures CursorsFit(w) && st.chunkBytes > 0 && w.a.receiver.refused == []
    ensures Link(st.a, st.chunkBytes, SenderOf(w.a, w.bCtl, w.bBulk), ReceiverOf(w.b, w.aCtl))
    ensures Link(st.b, st.chunkBytes, SenderOf(w.b, w.aCtl, w.aBulk), ReceiverOf(w.a, w.bCtl))
  {
    ReceivedSoFar(st, w);
    hide StoreFacts, OutScript, AfterWants, HeadHeard, InboxHolds, ExpectedFacts, PhaseFacts, Link, CompletionFacts;
    hide Sound, VaultClosed, RowsAgree, SizeFaithful;
  }

  /** `Lost` looks at the transfer alone. */
  lemma LostFrame(d: Disk, s: SenderView, r: ReceiverView, s': SenderView, r': ReceiverView)
    requires s'.outgoing == s.outgoing && s'.inFlight == s.inFlight && s'.headers == s.headers && s'.sent == s.sent
    requires r'.acks == r.acks && r'.received == r.received && r'.receiver == r.receiver
    ensures Lost(d, s', r') <==> Lost(d, s, r)
  {
    hide HasFirst, HasGap;
  }

  // ---- the run ---------------------------------------------------------------------

  lemma RunLoses(st: Setting, w: World, c: Choice)
    requires Inv(st, w) && StepA(st, w, RunMove(c)).Some?
    ensures var w' := StepA(st, w, RunMove(c)).value;
      CursorsFit(w') && (LostFromA(st, w') <==> LostFromA(st, w))
      && (LostFromA(SwappedSetting(st), Swapped(w')) <==> LostFromA(SwappedSetting(st), Swapped(w)))
  {
    hide Inv, Link, Lost, StepA, Headers, Acks;
    InvCursors(st, w);
    InvCompletion(st, w);
    RunMoveFrame(st, w, c);
    var w' := StepA(st, w, RunMove(c)).value;
    SilentReads(w.a.out, w'.a.out, w.bCtl);
    LostFrame(st.a, SenderOf(w.a, w.bCtl, w.bBulk), ReceiverOf(w.b, w.aCtl), SenderOf(w'.a, w'.bCtl, w'.bBulk), ReceiverOf(w'.b, w'.aCtl));
    LostFrame(st.b, SenderOf(w.b, w.aCtl, w.aBulk), ReceiverOf(w.a, w.bCtl), SenderOf(w'.b, w'.aCtl, w'.aBulk), ReceiverOf(w'.a, w'.bCtl));
  }

  lemma RunMoveFrame(st: Setting, w: World, c: Choice)
    requires st.chunkBytes > 0 && StepA(st, w, RunMove(c)).Some? && w.a.hello.Hello?
    ensures var w' := StepA(st, w, RunMove(c)).value;
      w' == w.(a := w'.a) && SameTransfers(w.a, w'.a)
  {
    hide RunStep;
    RunStepFrame(st.sha, w.a, c);
  }

  lemma SilentReads(out: seq<Message>, out': seq<Message>, read: nat)
    requires SaysNoTransfer(out, out') && read <= |out|
    ensures read <= |out'| && Headers(out'[read..]) == Headers(out[read..]) && Acks(out'[read..]) == Acks(out[read..])
  {
    if out' != out {
      SendReads(out, read, out'[|out'| - 1]);
      hide Headers, Acks;
      assert Headers(out[read..]) + [] == Headers(out[read..]);
      assert Acks(out[read..]) + [] == Acks(out[read..]);
    }
  }

  // ---- the other steps --------------------------------------------------------------

  lemma ServeLoses(st: Setting, w: World)
    requires Inv(st, w) && StepA(st, w, ServeMove).Some?
    ensures var w' := StepA(st, w, ServeMove).value;
      CursorsFit(w') && (LostFromA(st, w') <==> LostFromA(st, w))
      && (LostFromA(SwappedSetting(st), Swapped(w')) <==> LostFromA(SwappedSetting(st), Swapped(w)))
  {
    hide Inv, Link, LostFromA, StepA;
    InvCursors(st, w);
    ServeFrame(st, w);
    if w.a.outgoing.None? {
      NextToServe(st, w);
      ServeStartLoses(st, w);
    } else {
      ServeOnLoses(st, w);
    }
  }

  /** Serving sends at most a header, and leaves what A receives alone. */
  lemma ServeFrame(st: Setting, w: World)
    requires st.chunkBytes > 0 && CursorsFit(w) && StepA(st, w, ServeMove).Some?
    ensures var w' := StepA(st, w, ServeMove).value;
      && w' == w.(a := w'.a) && CursorsFit(w')
      && ReceiverOf(w'.a, w'.bCtl) == ReceiverOf(w.a, w.bCtl)
      && (LostFromA(SwappedSetting(st), Swapped(w')) <==> LostFromA(SwappedSetting(st), Swapped(w)))
      && w.a.phase == Transferring && (w.a.outgoing.None? ==> w.a.toServe != [])
  {
    hide Lost, Headers, Acks, HasComplete, ServeStep;
    ServeShape(st.chunkBytes, w.a);
    var w' := StepA(st, w, ServeMove).value;
    if w'.a.out != w.a.out {
      SendReads(w.a.out, w.bCtl, w'.a.out[|w.a.out|]);
      assert Acks(w.a.out[w.bCtl..]) + [] == Acks(w.a.out[w.bCtl..]);
    }
    assert ReceiverOf(w'.a, w'.bCtl) == ReceiverOf(w.a, w.bCtl);
  }

  lemma ServeShape(chunkBytes: nat, x: Side)
    requires chunkBytes > 0 && ServeStep(chunkBytes, x).Some?
    ensures x.phase == Transferring && (x.outgoing.None? ==> x.toServe != [])
    ensures var x' := ServeStep(chunkBytes, x).value;
      && x'.receiver == x.receiver && x'.wanted == x.wanted && x'.received == x.received && x.bulkOut <= x'.bulkOut
      && (x'.out == x.out || (|x'.out| == |x.out| + 1 && x'.out == x.out + [x'.out[|x.out|]] && x'.out[|x.out|].RevisionHeader?))
  {
    hide SlicesOf, HeaderFor;
  }

  lemma ServeStartLoses(st: Setting, w: World)
    requires st.chunkBytes > 0 && CursorsFit(w) && StepA(st, w, ServeMove).Some? && CursorsFit(StepA(st, w, ServeMove).value)
    requires w.a.outgoing.None? && w.a.toServe != [] && w.a.toServe[0] in w.a.disk.tables.rows
    requires w.a.disk.tables.rows[w.a.toServe[0]].hash in w.a.disk.blobs
    requires Link(st.a, st.chunkBytes, SenderOf(w.a, w.bCtl, w.bBulk), ReceiverOf(w.b, w.aCtl))
    ensures !LostFromA(st, w) && !LostFromA(st, StepA(st, w, ServeMove).value)
  {
    hide HasFirst, HasGap, SlicesOf, Headers, Acks;
  }

  lemma ServeOnLoses(st: Setting, w: World)
    requires st.chunkBytes > 0 && CursorsFit(w) && StepA(st, w, ServeMove).Some? && CursorsFit(StepA(st, w, ServeMove).value)
    requires w.a.outgoing.Some?
    requires Link(st.a, st.chunkBytes, SenderOf(w.a, w.bCtl, w.bBulk), ReceiverOf(w.b, w.aCtl))
    ensures LostFromA(st, StepA(st, w, ServeMove).value) <==> LostFromA(st, w)
  {
    hide InStage, Link, Headers, Acks;
    var s, r, o := SenderOf(w.a, w.bCtl, w.bBulk), ReceiverOf(w.b, w.aCtl), w.a.outgoing.value;
    OutgoingInRange(st.a, st.chunkBytes, s, r);
    if o.nextChunk < |o.slices| {
      PushLink(st.a, st.chunkBytes, s, r);
      var f := FrameOf(o, o.nextChunk);
      assert (w.a.bulkOut + [f])[w.bBulk..] == w.a.bulkOut[w.bBulk..] + [f];
    } else {
      FinishLink(st.a, st.chunkBytes, s, r);
    }
  }

  lemma IngestLoses(st: Setting, w: World)
    requires Inv(st, w) && StepA(st, w, IngestMove).Some?
    ensures var w' := StepA(st, w, IngestMove).value;
      CursorsFit(w') && (LostFromA(st, w') <==> LostFromA(st, w))
      && (LostFromA(SwappedSetting(st), Swapped(w')) <==> LostFromA(SwappedSetting(st), Swapped(w)))
  {
    hide Inv, Link, LostFromA, Ingested, IngestStep, Describes, StepA, Headers, Acks, Notify, Replay;
    InvCursors(st, w);
    IngestEnabled(st, w);
    ReadyIsNext(st, w);
    NextIngested(st, w);
    var id := w.a.wanted[|w.a.received|];
    IngestMoveIs(st, w, id);
    var w' := w.(a := Ingested(st.sha, w.a, id));
    IngestedShape(st.sha, w.a, id);
    IngestedIdle(st, w, w', id);
  }

  lemma IngestedIdle(st: Setting, w: World, w': World, id: RevisionId)
    requires st.chunkBytes > 0 && CursorsFit(w) && w' == w.(a := w'.a) && w'.a.out == w.a.out + [RevisionAck(id, true, None)]
    requires w'.a == Notify(w.a.(out := w'.a.out, receiver := IDLE, disk := w'.a.disk, expected := w.a.expected - {id},
                            received := w.a.received + [id]))
    requires Link(st.b, st.chunkBytes, SenderOf(w.b, w.aCtl, w.aBulk), ReceiverOf(w.a, w.bCtl)) && w.a.receiver.ready != []
    ensures CursorsFit(w') && (LostFromA(st, w') <==> LostFromA(st, w))
    ensures !LostFromA(SwappedSetting(st), Swapped(w)) && !LostFromA(SwappedSetting(st), Swapped(w'))
  {
    hide Link, Headers, Acks, Lost;
    IngestLink(st.b, st.chunkBytes, SenderOf(w.b, w.aCtl, w.aBulk), ReceiverOf(w.a, w.bCtl));
    SendReads(w.a.out, w.bCtl, RevisionAck(id, true, None));
    assert Headers(w.a.out[w.bCtl..]) + [] == Headers(w.a.out[w.bCtl..]);
    assert SenderOf(w'.a, w'.bCtl, w'.bBulk) == SenderOf(w.a, w.bCtl, w.bBulk);
    assert w'.a.receiver == IDLE;
    IdleLosesNothing(st.b, SenderOf(w.b, w.aCtl, w.aBulk), ReceiverOf(w.a, w.bCtl), ReceiverOf(w'.a, w'.bCtl));
  }

  /** After its ingest a revision is acknowledged: acknowledgements on the way rule out a loss. */
  lemma IdleLosesNothing(d: Disk, s: SenderView, r: ReceiverView, r': ReceiverView)
    requires r'.acks != []
    ensures !Lost(d, s, r')
  {
    hide HasFirst, HasGap;
  }

  // ---- deliveries ---------------------------------------------------------------------

  lemma BulkLoses(st: Setting, w: World)
    requires Inv(st, w) && w.a.phase != Unstarted && w.aBulk < |w.b.bulkOut|
    ensures StepA(st, w, BulkMove)
         == Some(w.(a := w.a.(receiver := OnFrame(w.a.receiver, w.b.bulkOut[w.aBulk])), aBulk := w.aBulk + 1))
    ensures |OnFrame(w.a.receiver, w.b.bulkOut[w.aBulk]).ready| <= |w.a.receiver.ready| + 1
    ensures var w' := StepA(st, w, BulkMove).value;
      CursorsFit(w') && (LostFromA(st, w') <==> LostFromA(st, w))
      && (LostFromA(SwappedSetting(st), Swapped(w'))
          <==> LostFromA(SwappedSetting(st), Swapped(w)) || DropsA(w, BulkMove))
  {
    hide Inv, Link, LostFromA, OnFrame, DropsA, Absorb;
    InvCursors(st, w);
    FrameLoses(st, w);
    AbsorbQuiet(w.a, OnFrame(w.a.receiver, w.b.bulkOut[w.aBulk]));
  }

  lemma FrameLoses(st: Setting, w: World)
    requires st.chunkBytes > 0 && CursorsFit(w) && w.aBulk < |w.b.bulkOut|
    requires Link(st.b, st.chunkBytes, SenderOf(w.b, w.aCtl, w.aBulk), ReceiverOf(w.a, w.bCtl))
    ensures OnFrame(w.a.receiver, w.b.bulkOut[w.aBulk]).refused == []
    ensures |OnFrame(w.a.receiver, w.b.bulkOut[w.aBulk]).ready| <= |w.a.receiver.ready| + 1
    ensures var w' := w.(a := w.a.(receiver := OnFrame(w.a.receiver, w.b.bulkOut[w.aBulk])), aBulk := w.aBulk + 1);
      CursorsFit(w') && (LostFromA(st, w') <==> LostFromA(st, w))
      && (LostFromA(SwappedSetting(st), Swapped(w')) <==> LostFromA(SwappedSetting(st), Swapped(w)) || DropsA(w, BulkMove))
  {
    FrameReady(w.a.receiver, w.b.bulkOut[w.aBulk]);
    hide Link, Lost, OnFrame, Headers, Acks;
    var s, r := SenderOf(w.b, w.aCtl, w.aBulk), ReceiverOf(w.a, w.bCtl);
    assert s.inFlight[0] == w.b.bulkOut[w.aBulk] && s.inFlight[1..] == w.b.bulkOut[w.aBulk + 1..];
    FrameLink(st.b, st.chunkBytes, s, r);
  }

  lemma FrameReady(r: Receiver, f: ChunkFrame)
    ensures |OnFrame(r, f).ready| <= |r.ready| + 1
  {
  }

  /** What reading one control message can touch. */
  ghost predicate ReadTouches(x: Side, x': Side, m: Message) {
    && x'.out == x.out && x'.toServe == x.toServe && x'.phase == x.phase && x'.sent == x.sent && x'.bulkOut == x.bulkOut
    && (if m.RevisionHeader? then |x'.receiver.ready| <= |x.receiver.ready| + 1 else x'.receiver == x.receiver)
    && (x.outgoing.Some? <==> x'.outgoing.Some?)
    && (x.outgoing.Some? ==> x'.outgoing.value.(ack := None) == x.outgoing.value.(ack := None))
  }

  lemma ControlLoses(st: Setting, w: World)
    requires Inv(st, w) && w.aCtl < |w.b.out|
    ensures var w' := AfterReading(w);
      CursorsFit(w') && (LostFromA(st, w') <==> LostFromA(st, w))
      && (LostFromA(SwappedSetting(st), Swapped(w')) <==> LostFromA(SwappedSetting(st), Swapped(w)))
      && ReadTouches(w.a, w'.a, w.b.out[w.aCtl])
  {
    hide Inv, Link, LostFromA, OnControl;
    InvCursors(st, w);
    HeaderAfterOpening(st, w);
    var m := w.b.out[w.aCtl];
    if m.RevisionHeader? {
      HeaderLoses(st, w);
    } else {
      if w.aCtl < 5 {
        OpeningIsOpening(st, w);
      }
      OnControlIs(w.a, m);
      if m.RevisionAck? {
        AckLoses(st, w);
        AckOthers(st, w);
      } else {
        QuietLoses(st, w);
      }
    }
  }

  lemma AckOthers(st: Setting, w: World)
    requires CursorsFit(w) && w.aCtl < |w.b.out| && w.b.out[w.aCtl].RevisionAck?
    requires AfterReading(w).a == OnAck(w.a, w.b.out[w.aCtl].ackId, w.b.out[w.aCtl].accepted)
    ensures LostFromA(SwappedSetting(st), Swapped(AfterReading(w))) <==> LostFromA(SwappedSetting(st), Swapped(w))
  {
    hide Lost, OnControl;
    OthersUnread(st, w, AfterReading(w));
    hide Headers, Acks;
  }

  lemma QuietLoses(st: Setting, w: World)
    requires CursorsFit(w) && w.aCtl < |w.b.out| && !w.b.out[w.aCtl].RevisionAck? && !w.b.out[w.aCtl].RevisionHeader?
    requires AfterReading(w).a == w.a.(inbox := AfterReading(w).a.inbox, peerCompleted := AfterReading(w).a.peerCompleted,
                                       drained := AfterReading(w).a.drained)
    ensures LostFromA(st, AfterReading(w)) <==> LostFromA(st, w)
    ensures LostFromA(SwappedSetting(st), Swapped(AfterReading(w))) <==> LostFromA(SwappedSetting(st), Swapped(w))
  {
    hide Lost, OnControl;
    OthersUnread(st, w, AfterReading(w));
    hide Headers, Acks;
  }

  lemma HeaderLoses(st: Setting, w: World)
    requires st.chunkBytes > 0 && CursorsFit(w) && w.aCtl < |w.b.out| && w.b.out[w.aCtl].RevisionHeader? && w.a.remote.Some?
    requires Link(st.b, st.chunkBytes, SenderOf(w.b, w.aCtl, w.aBulk), ReceiverOf(w.a, w.bCtl))
    ensures var w' := AfterReading(w);
      CursorsFit(w') && (LostFromA(st, w') <==> LostFromA(st, w))
      && (LostFromA(SwappedSetting(st), Swapped(w')) <==> LostFromA(SwappedSetting(st), Swapped(w)))
    ensures AfterReading(w).a == w.a.(receiver := AfterReading(w).a.receiver)
    ensures |AfterReading(w).a.receiver.ready| <= |w.a.receiver.ready| + 1
  {
    var h := w.b.out[w.aCtl].header;
    var s, r := SenderOf(w.b, w.aCtl, w.aBulk), ReceiverOf(w.a, w.bCtl);
    DeliverReads(w.b.out, w.aCtl);
    hide Headers, Acks;
    assert s.headers == [h] + Headers(w.b.out[w.aCtl + 1..]);
    HeaderLink(st.b, st.chunkBytes, s, r);
    HeaderDelivered(w);
    hide Link, Lost, OnHeader, OnControl;
    OthersUnread(st, w, AfterReading(w));
    assert Headers(w.b.out[w.aCtl + 1..]) == [];
  }

  lemma AckLoses(st: Setting, w: World)
    requires st.chunkBytes > 0 && CursorsFit(w) && w.aCtl < |w.b.out| && w.b.out[w.aCtl].RevisionAck?
    requires Link(st.a, st.chunkBytes, SenderOf(w.a, w.bCtl, w.bBulk), ReceiverOf(w.b, w.aCtl))
    requires AfterReading(w).a == OnAck(w.a, w.b.out[w.aCtl].ackId, w.b.out[w.aCtl].accepted)
    ensures !LostFromA(st, w) && !LostFromA(st, AfterReading(w))
  {
    var s, r := SenderOf(w.a, w.bCtl, w.bBulk), ReceiverOf(w.b, w.aCtl);
    var m := w.b.out[w.aCtl];
    DeliverReads(w.b.out, w.aCtl);
    hide Headers, Acks, OnControl;
    assert r.acks == [(m.ackId, m.accepted)] + Acks(w.b.out[w.aCtl + 1..]);
    AckLink(st.a, st.chunkBytes, s, r);
    assert r.acks[0] == (m.ackId, m.accepted);
    hide Link;
    AnsweredIsNotLost(st.a, SenderOf(AfterReading(w).a, w.bCtl, w.bBulk), ReceiverOf(w.b, w.aCtl + 1));
  }

  lemma AnsweredIsNotLost(d: Disk, s: SenderView, r: ReceiverView)
    requires s.outgoing.Some? && s.outgoing.value.ack.Some?
    ensures !Lost(d, s, r)
  {
    hide HasFirst, HasGap;
  }

  // ---- losing, for every step -----------------------------------------------------------

  lemma StepALoses(st: Setting, w: World, m: Move)
    requires Inv(st, w) && StepA(st, w, m).Some?
    ensures var w' := StepA(st, w, m).value;
      CursorsFit(w) && CursorsFit(w') && (LostFromA(st, w') <==> LostFromA(st, w))
      && (LostFromA(SwappedSetting(st), Swapped(w'))
          <==> LostFromA(SwappedSetting(st), Swapped(w)) || DropsA(w, m))
  {
    hide Inv, LostFromA, StepA, OnControl, OnBulk, Link;
    InvCursors(st, w);
    match m
    case RunMove(c) => RunLoses(st, w, c);
    case ServeMove => ServeLoses(st, w);
    case IngestMove => IngestLoses(st, w);
    case ControlMove =>
      ReadingIs(st, w);
      ControlLoses(st, w);
    case BulkMove =>
      BulkEnabled(st, w);
      BulkLoses(st, w);
  }

  lemma BulkEnabled(st: Setting, w: World)
    requires st.chunkBytes > 0 && StepA(st, w, BulkMove).Some?
    ensures w.a.phase != Unstarted && w.aBulk < |w.b.bulkOut|
  {
    hide OnBulk;
  }

  /** A step loses a frame exactly when it drops one, and nothing ever recovers a lost frame. */
  lemma LossIsDropping(st: Setting, w: World, who: Who, m: Move)
    requires Inv(st, w) && Step(st, w, who, m).Some?
    ensures CursorsFit(w) && CursorsFit(Step(st, w, who, m).value)
    ensures AnyLost(st, Step(st, w, who, m).value) <==> AnyLost(st, w) || Drops(w, who, m)
  {
    hide StepA, Inv, LostFromA, DropsA, Link;
    InvCursors(st, w);
    match who
    case DeviceA =>
      StepALoses(st, w, m);
    case DeviceB =>
      var st', w' := SwappedSetting(st), Swapped(w);
      InvSwaps(st, w);
      StepALoses(st', w', m);
      assert SwappedSetting(st') == st && Swapped(w') == w;
  }

  /** A device whose frame was lost is still serving: it never finishes. */
  lemma LostIsUnfinished(st: Setting, w: World)
    requires Inv(st, w)
    ensures CursorsFit(w) && (AnyLost(st, w) ==> w.a.phase != Finished || w.b.phase != Finished)
  {
    hide Inv, InStage, Link, HelloOk;
    InvCursors(st, w);
    InvCompletion(st, w);
    InvSwaps(st, w);
    InvCompletion(SwappedSetting(st), Swapped(w));
  }
}
