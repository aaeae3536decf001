/** The transfer steps of a joint session keep the invariant, dropped frames included. */
module JointTransfers {
  import opened Basics
  import opened Reachability
  import opened RemoteHistory
  import opened Framing
  import opened Chunks
  import opened Store
  import opened Engine
  import opened EngineRuns
  import opened Messages
  import opened Inbound
  import opened Session
  import opened TransferLink
  import opened JointSession
  import opened JointSafety

  /** What A has received and expects, by the transfer invariant of the direction towards A. */
  lemma ReceivedSoFar(st: Setting, w: World)
    requires Inv(st, w)
    ensures w.a.received <= w.a.wanted && w.a.receiver.refused == []
    ensures Active(w.b) && w.b.toServe == [] && w.b.outgoing.None? ==> w.a.received == w.a.wanted == w.b.sent
  {
    hide StoreFacts, OutScript, PhaseFacts, AfterWants, HeadHeard, CompletionFacts, InboxHolds, Link, Sound, VaultClosed, RowsAgree, SizeFaithful;
    ReceivedIsPrefix(st.b, st.chunkBytes, SenderOf(w.b, w.aCtl, w.aBulk), ReceiverOf(w.a, w.bCtl));
  }

  // ---- serving -------------------------------------------------------------------

  /** What the peer wants is stored here, readable and of the stored size. */
  lemma WantedIsServable(d: Disk, peer: Disk, v: VaultId, sha: Digest, wanted: seq<RevisionId>, id: RevisionId)
    requires WantFacts(peer, d, v, wanted) && Sound(sha, d) && id in wanted
    ensures id in d.tables.rows && d.tables.rows[id].vaultId == v && d.tables.rows[id].hash in d.blobs
    ensures |d.blobs[d.tables.rows[id].hash]| == d.tables.rows[id].sizeBytes
    ensures id !in VaultGraph(peer.tables, v)
  {
    hide Closed, Acyclic, BlobsGenuine, HeadsStored, KeysResolve, LogsLinked, Reaches;
    assert id in VaultGraph(d.tables, v);
  }

  /** The session never changes what the disk held at its start. */
  lemma StartDiskKept(sha: Digest, d: Disk, peer: Disk, v: VaultId, x: Side, id: RevisionId)
    requires StoreFacts(sha, d, peer, v, x) && id in d.tables.rows && d.tables.rows[id].hash in d.blobs
    ensures id in x.disk.tables.rows && x.disk.tables.rows[id] == d.tables.rows[id]
    ensures ParentsOf(x.disk.tables, id) == ParentsOf(d.tables, id)
    ensures d.tables.rows[id].hash in x.disk.blobs && x.disk.blobs[d.tables.rows[id].hash] == d.blobs[d.tables.rows[id].hash]
  {
    hide Sound, RowsAgree, VaultClosed;
  }

  lemma PeerWants(st: Setting, w: World)
    requires Inv(st, w) && Active(w.a)
    ensures WantFacts(st.b, st.a, st.v, w.b.wanted)
  {
    hide Link, StoreFacts, GoodSetting, PhaseFacts, ExpectedFacts, HeadHeard, CompletionFacts, WantFacts, SummaryFits, IsHistory;
  }

  /** An idle active sender with work left picks the next wanted revision. */
  lemma NextToServe(st: Setting, w: World)
    requires Inv(st, w) && w.a.phase == Transferring && w.a.outgoing.None? && w.a.toServe != []
    ensures w.a.toServe[0] in w.b.wanted
    ensures var id := w.a.toServe[0];
      && id in st.a.tables.rows && st.a.tables.rows[id].hash in st.a.blobs
      && |st.a.blobs[st.a.tables.rows[id].hash]| == st.a.tables.rows[id].sizeBytes
      && id in w.a.disk.tables.rows && w.a.disk.tables.rows[id].hash in w.a.disk.blobs
      && BytesOf(w.a.disk, id) == BytesOf(st.a, id)
      && HeaderFor(w.a.disk.tables, id, w.a.transferSeq + 1, ChunkCountFor(|BytesOf(st.a, id)|, st.chunkBytes))
         == HeaderFor(st.a.tables, id, w.a.transferSeq + 1, ChunkCountFor(|BytesOf(st.a, id)|, st.chunkBytes))
  {
    var id := w.a.toServe[0];
    PeerWants(st, w);
    hide Sound, StoreFacts, OutScript, PhaseFacts, AfterWants, HeadHeard, CompletionFacts, InboxHolds, VaultClosed, RowsAgree, WantFacts;
    hide SizeFaithful, ExpectedFacts;
    assert id in w.b.wanted by {
      hide Serving;
      var c := |w.a.sent|;
      assert w.a.toServe == w.b.wanted[c..];
    }
    assert Sound(st.sha, st.a);
    WantedIsServable(st.a, st.b, st.v, st.sha, w.b.wanted, id);
    StartDiskKept(st.sha, st.a, st.b, st.v, w.a, id);
    hide *;
  }

  /** A step that only touches what A is serving. */
  lemma ServingAssembled(st: Setting, w: World, w': World, m: seq<Message>)
    requires Inv(st, w) && w.a.phase == Transferring && |m| <= 1
    requires w' == w.(a := w'.a)
    requires w'.a == w.a.(out := w.a.out + m, bulkOut := w'.a.bulkOut, toServe := w'.a.toServe, outgoing := w'.a.outgoing,
                          transferSeq := w'.a.transferSeq, sent := w'.a.sent)
    requires w.a.bulkOut <= w'.a.bulkOut && (m != [] ==> m[0].RevisionHeader?)
    requires Link(st.a, st.chunkBytes, SenderOf(w'.a, w'.bCtl, w'.bBulk), ReceiverOf(w'.b, w'.aCtl))
    ensures Inv(st, w')
  {
    hide Link, StoreFacts, GoodSetting, WantFacts, SummaryFits, IsHistory, Headers, Acks, HasComplete, StartVault, HelloOk, HeadOf;
    if m == [] {
      assert w.a.out + m == w.a.out;
    } else {
      assert w.a.out + m == w.a.out + [m[0]];
      SendReads(w.a.out, w.bCtl, m[0]);
    }
    assert ReceiverOf(w'.a, w'.bCtl) == ReceiverOf(w.a, w.bCtl);
    StoreFrame(st.sha, st.a, st.b, st.v, w.a, w'.a);
    Assembled(st, w, w');
  }

  lemma ServeStartKeeps(st: Setting, w: World)
    requires Inv(st, w) && w.a.phase == Transferring && w.a.outgoing.None? && w.a.toServe != []
    ensures ServeStep(st.chunkBytes, w.a).Some? && Inv(st, w.(a := ServeStep(st.chunkBytes, w.a).value))
  {
    hide Inv, Link, HeaderFor, SlicesOf, Headers, Acks, HasComplete, ServeStep, GoodSetting;
    NextToServe(st, w);
    InvLinks(st, w);
    var id := w.a.toServe[0];
    var slices := SlicesOf(BytesOf(st.a, id), st.chunkBytes);
    var o := Outgoing(id, w.a.transferSeq + 1, slices, 0, None);
    var h := HeaderFor(st.a.tables, id, o.transferSeq, |slices|);
    ServeStarts(st.chunkBytes, w.a, h, slices);
    var w' := w.(a := ServeStep(st.chunkBytes, w.a).value);
    StartLink(st.a, st.chunkBytes, SenderOf(w.a, w.bCtl, w.bBulk), ReceiverOf(w.b, w.aCtl), o);
    SendReads(w.a.out, w.bCtl, RevisionHeader(h));
    IdleHasNoHeaders(st.a, st.chunkBytes, SenderOf(w.a, w.bCtl, w.bBulk), ReceiverOf(w.b, w.aCtl));
    assert [] + [h] == [h] && TransferOf(st.a, o).header == h;
    assert SenderOf(w'.a, w'.bCtl, w'.bBulk) == SenderOf(w.a, w.bCtl, w.bBulk).(toServe := w.a.toServe[1..],
        transferSeq := o.transferSeq, outgoing := Some(o), headers := [h]);
    ServingAssembled(st, w, w', [RevisionHeader(h)]);
  }

  lemma IdleHasNoHeaders(d: Disk, chunkBytes: nat, s: SenderView, r: ReceiverView)
    requires chunkBytes > 0 && Link(d, chunkBytes, s, r) && s.outgoing.None?
    ensures s.headers == []
  {
    hide Serving;
  }

  lemma ServePushKeeps(st: Setting, w: World)
    requires Inv(st, w) && w.a.phase == Transferring && w.a.outgoing.Some?
    requires w.a.outgoing.value.nextChunk < |w.a.outgoing.value.slices|
    ensures ServeStep(st.chunkBytes, w.a).Some? && Inv(st, w.(a := ServeStep(st.chunkBytes, w.a).value))
  {
    hide StoreFacts, OutScript, PhaseFacts, AfterWants, HeadHeard, CompletionFacts, InboxHolds, ExpectedFacts;
    hide Sound, VaultClosed, RowsAgree, SizeFaithful, Link;
    var w' := w.(a := ServeStep(st.chunkBytes, w.a).value);
    var o := w.a.outgoing.value;
    var f := FrameOf(o, o.nextChunk);
    PushLink(st.a, st.chunkBytes, SenderOf(w.a, w.bCtl, w.bBulk), ReceiverOf(w.b, w.aCtl));
    assert (w.a.bulkOut + [f])[w.bBulk..] == w.a.bulkOut[w.bBulk..] + [f];
    assert w.a.out + [] == w.a.out;
    ServingAssembled(st, w, w', []);
  }

  lemma ServeDoneKeeps(st: Setting, w: World)
    requires Inv(st, w) && w.a.phase == Transferring && w.a.outgoing.Some?
    requires w.a.outgoing.value.nextChunk == |w.a.outgoing.value.slices| && w.a.outgoing.value.ack.Some?
    ensures ServeStep(st.chunkBytes, w.a).Some? && Inv(st, w.(a := ServeStep(st.chunkBytes, w.a).value))
  {
    hide StoreFacts, OutScript, PhaseFacts, AfterWants, HeadHeard, CompletionFacts, InboxHolds, ExpectedFacts;
    hide Sound, VaultClosed, RowsAgree, SizeFaithful, Link;
    var w' := w.(a := ServeStep(st.chunkBytes, w.a).value);
    FinishLink(st.a, st.chunkBytes, SenderOf(w.a, w.bCtl, w.bBulk), ReceiverOf(w.b, w.aCtl));
    assert w.a.out + [] == w.a.out;
    ServingAssembled(st, w, w', []);
  }

  lemma OutgoingInRange(d: Disk, chunkBytes: nat, s: SenderView, r: ReceiverView)
    requires chunkBytes > 0 && Link(d, chunkBytes, s, r) && s.outgoing.Some?
    ensures s.outgoing.value.nextChunk <= |s.outgoing.value.slices|
  {
    hide InStage, FramesFrom;
  }

  lemma ServeKeeps(st: Setting, w: World)
    requires Inv(st, w) && StepA(st, w, ServeMove).Some?
    ensures Inv(st, StepA(st, w, ServeMove).value)
  {
    if w.a.outgoing.None? {
      hide Inv;
      ServeStartKeeps(st, w);
    } else {
      hide StoreFacts, OutScript, PhaseFacts, AfterWants, HeadHeard, CompletionFacts, InboxHolds, ExpectedFacts;
      hide Sound, VaultClosed, RowsAgree, SizeFaithful, Link;
      OutgoingInRange(st.a, st.chunkBytes, SenderOf(w.a, w.bCtl, w.bBulk), ReceiverOf(w.b, w.aCtl));
      hide Inv;
      if w.a.outgoing.value.nextChunk < |w.a.outgoing.value.slices| {
        ServePushKeeps(st, w);
      } else {
        ServeDoneKeeps(st, w);
      }
    }
  }

  // ---- receiving -----------------------------------------------------------------

  /** While a wanted revision is outstanding the run has not got past the transfer. */
  lemma StillExpecting(st: Setting, w: World)
    requires Inv(st, w) && |w.a.received| < |w.a.wanted|
    ensures w.a.wanted[|w.a.received|] in w.a.expected && Rank(w.a.phase) <= 6 && !w.a.drained
  {
    hide Link, StoreFacts, GoodSetting, WantFacts, SummaryFits, IsHistory, OutScript, InboxHolds, CompletionFacts;
    assert w.a.wanted[|w.a.received|..][0] == w.a.wanted[|w.a.received|];
  }

  /** Something of a transfer is on the way or waiting to be ingested only while its revision is outstanding. */
  lemma TransferMeansOutstanding(d: Disk, chunkBytes: nat, s: SenderView, r: ReceiverView)
    requires chunkBytes > 0 && Link(d, chunkBytes, s, r)
    requires s.inFlight != [] || s.headers != [] || r.receiver.ready != []
    ensures |r.received| < |r.wanted| && s.active
  {
    hide HasFirst, HasGap;
  }

  lemma ScriptFrame(d: Disk, v: VaultId, x: Side, x': Side)
    requires OutScript(d, v, x) && x'.out == x.out && x'.phase == x.phase && x'.wanted == x.wanted
    ensures OutScript(d, v, x')
  {
    hide IsHistory, SummaryFits, HelloOk;
  }

  lemma ReadOnKeepsInbox(x: Side, x': Side, out: seq<Message>, read: nat, read': nat)
    requires InboxHolds(x, out, read) && x'.inbox == x.inbox && x'.phase == x.phase
    requires read' == read || (read >= 5 && read' == read + 1 <= |out|)
    ensures InboxHolds(x', out, read')
  {
  }

  lemma ReceiverFacts(st: Setting, w: World, a': Side)
    requires Inv(st, w) && |w.a.received| < |w.a.wanted| && a' == w.a.(receiver := a'.receiver)
    ensures OutScript(st.a, st.v, a') && PhaseFacts(st.a, st.v, a') && AfterWants(st.a, st.b, st.v, a')
    ensures ExpectedFacts(a') && HeadHeard(st.b, st.v, a') && StoreFacts(st.sha, st.a, st.b, st.v, a')
  {
    StillExpecting(st, w);
    hide Link, StoreFacts, GoodSetting, WantFacts, OutScript, InboxHolds, CompletionFacts;
    ScriptFrame(st.a, st.v, w.a, a');
    StoreFrame(st.sha, st.a, st.b, st.v, w.a, a');
  }

  /** Nothing but a header or an answer changes what the transfers see of the control channel. */
  lemma OthersUnread(st: Setting, w: World, w': World)
    requires w.aCtl < |w.b.out| && w.aBulk <= |w.b.bulkOut| && w'.b == w.b && w'.aCtl == w.aCtl + 1 && w'.aBulk == w.aBulk
    ensures !w.b.out[w.aCtl].RevisionHeader? ==> SenderOf(w'.b, w'.aCtl, w'.aBulk) == SenderOf(w.b, w.aCtl, w.aBulk)
    ensures !w.b.out[w.aCtl].RevisionAck? ==> ReceiverOf(w'.b, w'.aCtl) == ReceiverOf(w.b, w.aCtl)
  {
    DeliverReads(w.b.out, w.aCtl);
    hide Headers, Acks, HasComplete;
    assert [] + Headers(w.b.out[w.aCtl + 1..]) == Headers(w.b.out[w.aCtl + 1..]);
    assert [] + Acks(w.b.out[w.aCtl + 1..]) == Acks(w.b.out[w.aCtl + 1..]);
  }

  /** Reading anything but a completion leaves the account of completions alone. */
  lemma CompletionUnread(x: Side, x': Side, peer: Side, read: nat, read': nat)
    requires read <= |peer.out| && CompletionFacts(x, peer, read) && x'.peerCompleted == x.peerCompleted
    requires read' == read || (read < |peer.out| && read' == read + 1 && !peer.out[read].SyncComplete?)
    ensures CompletionFacts(x', peer, read')
  {
    if read' > read {
      DeliverReads(peer.out, read);
    }
    hide HasComplete, Headers, Acks;
  }

  lemma InvTransfers(st: Setting, w: World)
    requires Inv(st, w)
    ensures InboxHolds(w.a, w.b.out, w.aCtl) && CompletionFacts(w.a, w.b, w.aCtl) && CompletionFacts(w.b, w.a, w.bCtl)
    ensures Link(st.a, st.chunkBytes, SenderOf(w.a, w.bCtl, w.bBulk), ReceiverOf(w.b, w.aCtl))
  {
    hide StoreFacts, OutScript, AfterWants, HeadHeard, InboxHolds, ExpectedFacts, PhaseFacts, Link, CompletionFacts;
    hide Sound, VaultClosed, RowsAgree, SizeFaithful;
  }

  /** A step that only moves A's transfers forward. */
  lemma ReceivingAssembled(st: Setting, w: World, w': World)
    requires Inv(st, w) && |w.a.received| < |w.a.wanted| && Active(w.b)
    requires w' == w.(a := w.a.(receiver := w'.a.receiver), aCtl := w'.aCtl, aBulk := w'.aBulk)
    requires w.aCtl <= w'.aCtl <= |w.b.out| && w'.aBulk <= |w.b.bulkOut|
    requires w'.aCtl == w.aCtl || (w'.aCtl == w.aCtl + 1 && w.aCtl >= 5 && w.b.out[w.aCtl].RevisionHeader?)
    requires Link(st.b, st.chunkBytes, SenderOf(w'.b, w'.aCtl, w'.aBulk), ReceiverOf(w'.a, w'.bCtl))
    ensures Inv(st, w')
  {
    ReceiverFacts(st, w, w'.a);
    InvTransfers(st, w);
    hide Inv, Link, StoreFacts, GoodSetting, OutScript, PhaseFacts, AfterWants, ExpectedFacts, HeadHeard, InboxHolds, CompletionFacts;
    ReadOnKeepsInbox(w.a, w'.a, w.b.out, w.aCtl, w'.aCtl);
    CompletionUnread(w.a, w'.a, w.b, w.aCtl, w'.aCtl);
    SameCompletion(w.b, w.a, w'.a, w.bCtl);
    if w'.aCtl > w.aCtl {
      OthersUnread(st, w, w'.(aBulk := w.aBulk));
    }
    assert ReceiverOf(w'.b, w'.aCtl) == ReceiverOf(w.b, w.aCtl);
    Assembled(st, w, w');
  }

  lemma SameCompletion(x: Side, peer: Side, peer': Side, read: nat)
    requires read <= |peer.out| && CompletionFacts(x, peer, read) && peer'.out == peer.out && peer'.phase == peer.phase
    ensures CompletionFacts(x, peer', read)
  {
    hide HasComplete;
  }

  lemma BulkKeeps(st: Setting, w: World)
    requires Inv(st, w) && StepA(st, w, BulkMove).Some?
    ensures Inv(st, StepA(st, w, BulkMove).value)
  {
    hide StoreFacts, OutScript, PhaseFacts, AfterWants, HeadHeard, CompletionFacts, InboxHolds, ExpectedFacts;
    hide Sound, VaultClosed, RowsAgree, SizeFaithful, Link, OnFrame;
    var w' := StepA(st, w, BulkMove).value;
    var s, r := SenderOf(w.b, w.aCtl, w.aBulk), ReceiverOf(w.a, w.bCtl);
    assert s.inFlight[0] == w.b.bulkOut[w.aBulk] && s.inFlight[1..] == w.b.bulkOut[w.aBulk + 1..];
    FrameLink(st.b, st.chunkBytes, s, r);
    TransferMeansOutstanding(st.b, st.chunkBytes, s, r);
    AbsorbQuiet(w.a, OnFrame(w.a.receiver, w.b.bulkOut[w.aBulk]));
    ReceivingAssembled(st, w, w');
  }

  lemma AbsorbQuiet(s: Side, r: Receiver)
    requires r.refused == []
    ensures Absorb(s, r) == s.(receiver := r)
  {
  }

  /** The world after A reads one more control message. */
  function AfterReading(w: World): World
    requires w.aCtl < |w.b.out|
  {
    w.(a := OnControl(w.a, w.b.out[w.aCtl]), aCtl := w.aCtl + 1)
  }

  lemma HeaderKeeps(st: Setting, w: World)
    requires Inv(st, w) && w.aCtl < |w.b.out| && w.b.out[w.aCtl].RevisionHeader?
    ensures Inv(st, AfterReading(w))
  {
    HeaderAfterOpening(st, w);
    hide StoreFacts, OutScript, PhaseFacts, AfterWants, HeadHeard, CompletionFacts, InboxHolds, ExpectedFacts;
    hide Sound, VaultClosed, RowsAgree, SizeFaithful, Link, OnHeader, HasComplete, Acks, Headers;
    var h := w.b.out[w.aCtl].header;
    var s, r := SenderOf(w.b, w.aCtl, w.aBulk), ReceiverOf(w.a, w.bCtl);
    DeliverReads(w.b.out, w.aCtl);
    assert s.headers == [h] + Headers(w.b.out[w.aCtl + 1..]);
    HeaderLink(st.b, st.chunkBytes, s, r);
    TransferMeansOutstanding(st.b, st.chunkBytes, s, r);
    var w' := w.(a := w.a.(receiver := OnHeader(w.a.receiver, h)), aCtl := w.aCtl + 1);
    assert Headers(w.b.out[w.aCtl + 1..]) == [];
    ReceivingAssembled(st, w, w');
    HeaderDelivered(w);
  }

  lemma HeaderDelivered(w: World)
    requires w.aCtl < |w.b.out| && w.b.out[w.aCtl].RevisionHeader? && w.a.remote.Some?
    requires OnHeader(w.a.receiver, w.b.out[w.aCtl].header).refused == []
    ensures AfterReading(w) == w.(a := w.a.(receiver := OnHeader(w.a.receiver, w.b.out[w.aCtl].header)), aCtl := w.aCtl + 1)
  {
    hide OnHeader;
    AbsorbQuiet(w.a, OnHeader(w.a.receiver, w.b.out[w.aCtl].header));
  }

  /** Headers, answers and completions come after the five opening messages, to a device that knows its peer. */
  lemma HeaderAfterOpening(st: Setting, w: World)
    requires Inv(st, w) && w.aCtl < |w.b.out|
    ensures w.aCtl < 5 ==> !w.b.out[w.aCtl].RevisionHeader? && !w.b.out[w.aCtl].RevisionAck? && !w.b.out[w.aCtl].SyncComplete?
    ensures w.aCtl < 5 ==> !w.b.out[w.aCtl].TransferCancel? && !w.b.out[w.aCtl].Error?
    ensures w.aCtl >= 5 ==> w.b.out[w.aCtl].RevisionHeader? || w.b.out[w.aCtl].RevisionAck? || w.b.out[w.aCtl].SyncComplete?
    ensures w.b.out[w.aCtl].RevisionHeader? ==> w.a.remote.Some?
  {
    hide Link, StoreFacts, GoodSetting, WantFacts, IsHistory, CompletionFacts, ExpectedFacts, AfterWants;
    if w.b.out[w.aCtl].RevisionHeader? {
      HeaderMeansActive(st, w);
    }
  }

  lemma HeaderMeansActive(st: Setting, w: World)
    requires Inv(st, w) && w.aCtl < |w.b.out| && w.b.out[w.aCtl].RevisionHeader?
    ensures Rank(w.a.phase) >= 5
  {
    hide StoreFacts, OutScript, PhaseFacts, AfterWants, HeadHeard, CompletionFacts, InboxHolds, ExpectedFacts;
    hide Sound, VaultClosed, RowsAgree, SizeFaithful, Link;
    DeliverReads(w.b.out, w.aCtl);
    TransferMeansOutstanding(st.b, st.chunkBytes, SenderOf(w.b, w.aCtl, w.aBulk), ReceiverOf(w.a, w.bCtl));
    ServingNeedsWants(st, w);
  }
}
