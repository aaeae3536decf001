/**
 One direction of a joint session: a device serving the other's want list, one revision at a time,
 over an ordered control channel and an ordered bulk channel that run independently. The invariant
 `Link` relates what the sender has done, what is in flight and what the receiver holds.
 */
module TransferLink {
  import opened Basics
  import opened Reachability
  import opened Framing
  import opened Chunks
  import opened Store
  import opened Messages
  import opened Inbound
  import opened TransferConfluence
  import opened Session

  /** The sender, with its frames and headers that are still on the way. */
  datatype SenderView = SenderView(active: bool, sent: seq<RevisionId>, toServe: seq<RevisionId>,
    outgoing: Option<Outgoing>, transferSeq: nat, inFlight: seq<ChunkFrame>, headers: seq<Header>)

  /** The receiver, with its answers that are still on the way. */
  datatype ReceiverView = ReceiverView(wanted: seq<RevisionId>, received: seq<RevisionId>, receiver: Receiver,
    acks: seq<(RevisionId, bool)>)

  /** The stored revision `o` is serving, by the sender's tables. */
  ghost predicate Serves(disk: Disk, chunkBytes: nat, o: Outgoing)
    requires chunkBytes > 0
  {
    && o.revisionId in disk.tables.rows
    && disk.tables.rows[o.revisionId].hash in disk.blobs
    && |disk.blobs[disk.tables.rows[o.revisionId].hash]| == disk.tables.rows[o.revisionId].sizeBytes
    && o.slices == SlicesOf(disk.blobs[disk.tables.rows[o.revisionId].hash], chunkBytes)
    && o.nextChunk <= |o.slices|
  }

  ghost function TransferOf(disk: Disk, o: Outgoing): Transfer
    requires o.revisionId in disk.tables.rows
  {
    Transfer(HeaderFor(disk.tables, o.revisionId, o.transferSeq, |o.slices|), o.slices)
  }

  lemma ServedTransferValid(disk: Disk, chunkBytes: nat, o: Outgoing)
    requires chunkBytes > 0 && Serves(disk, chunkBytes, o)
    ensures TransferOf(disk, o).Valid() && Flatten(o.slices) == BytesOf(disk, o.revisionId)
  {
    SlicesTile(BytesOf(disk, o.revisionId), chunkBytes);
  }

  function FrameOf(o: Outgoing, i: nat): ChunkFrame
    requires i < |o.slices|
  {
    ChunkFrame(o.transferSeq, i, o.slices[i])
  }

  /** `fs` are the frames from index `from` on, in order. */
  ghost predicate FramesFrom(o: Outgoing, fs: seq<ChunkFrame>, from: nat) {
    from + |fs| <= |o.slices| && forall i :: 0 <= i < |fs| ==> fs[i] == FrameOf(o, from + i)
  }

  /** How many frames of the current transfer have been delivered. */
  function Delivered(s: SenderView, o: Outgoing): int {
    o.nextChunk - |s.inFlight|
  }

  datatype Stage = HeaderOnTheWay | Collecting | Incomplete | Ready | Answering | Answered

  /** The receiver has the header and the first `d` slices, not all of them. */
  ghost predicate HasFirst(t: Transfer, r: Receiver, d: nat) {
    && r.assemblers.Keys == {t.Seq()} && Partial(t, r.assemblers[t.Seq()], Indices(d))
    && r.orphans == [] && r.ready == [] && r.refused == []
  }

  /** A slice was dropped: the receiver has the header but will never have slice sixty-four. */
  ghost predicate HasGap(t: Transfer, r: Receiver) {
    && r.assemblers.Keys == {t.Seq()} && MAX_ORPHAN_FRAMES !in r.assemblers[t.Seq()].assembly.chunks
    && Partial(t, r.assemblers[t.Seq()], r.assemblers[t.Seq()].assembly.chunks.Keys)
    && r.orphans == [] && r.ready == [] && r.refused == []
  }

  ghost predicate InStage(disk: Disk, s: SenderView, o: Outgoing, r: ReceiverView, stage: Stage)
    requires o.revisionId in disk.tables.rows && 0 <= Delivered(s, o) <= o.nextChunk <= |o.slices|
  {
    var d, t, c := Delivered(s, o), TransferOf(disk, o), |s.sent|;
    match stage
    case HeaderOnTheWay =>
      && s.headers == [t.header] && r.acks == [] && o.ack == None && r.received == s.sent
      && r.receiver == Receiver(map[], r.receiver.orphans, [], []) && FramesFrom(o, r.receiver.orphans, 0)
      && |r.receiver.orphans| == Min(d, MAX_ORPHAN_FRAMES)
    case Collecting =>
      s.headers == [] && r.acks == [] && o.ack == None && r.received == s.sent && HasFirst(t, r.receiver, d)
    case Incomplete =>
      s.headers == [] && r.acks == [] && o.ack == None && r.received == s.sent && HasGap(t, r.receiver)
      && d > MAX_ORPHAN_FRAMES
    case Ready =>
      && s.headers == [] && r.acks == [] && o.ack == None && r.received == s.sent && d == |o.slices|
      && r.receiver == Receiver(map[], [], [Delivery(t.header, Flatten(o.slices))], [])
    case Answering =>
      && s.headers == [] && r.acks == [(o.revisionId, true)] && o.ack == None && r.receiver == IDLE && d == |o.slices|
      && r.received == s.sent + [o.revisionId]
    case Answered =>
      && s.headers == [] && r.acks == [] && o.ack == Some(true) && r.receiver == IDLE && d == |o.slices|
      && r.received == s.sent + [o.revisionId]
  }

  /** The revision being served is the next one wanted, and its frames are in flight in order. */
  ghost predicate Aligned(disk: Disk, chunkBytes: nat, s: SenderView, o: Outgoing, r: ReceiverView)
    requires chunkBytes > 0
  {
    var c := |s.sent|;
    && s.active && c < |r.wanted| && s.sent == r.wanted[..c]
    && o.revisionId == r.wanted[c] && s.toServe == r.wanted[c + 1..]
    && s.transferSeq == o.transferSeq == c + 1
    && Serves(disk, chunkBytes, o)
    && 0 <= Delivered(s, o) && FramesFrom(o, s.inFlight, Delivered(s, o))
  }

  ghost predicate Serving(disk: Disk, chunkBytes: nat, s: SenderView, o: Outgoing, r: ReceiverView)
    requires chunkBytes > 0
  {
    Aligned(disk, chunkBytes, s, o, r) && exists stage :: InStage(disk, s, o, r, stage)
  }

  /** Between transfers: everything sent so far is received and answered, nothing is on the way. */
  ghost predicate Resting(s: SenderView, r: ReceiverView) {
    var c := |s.sent|;
    && c <= |r.wanted| && s.sent == r.wanted[..c] && r.received == s.sent && s.transferSeq == c
    && s.inFlight == [] && s.headers == [] && r.acks == [] && r.receiver == IDLE
    && if s.active then s.toServe == r.wanted[c..] else s.toServe == [] && c == 0
  }

  ghost predicate Link(disk: Disk, chunkBytes: nat, s: SenderView, r: ReceiverView)
    requires chunkBytes > 0
  {
    match s.outgoing
    case None => Resting(s, r)
    case Some(o) => Serving(disk, chunkBytes, s, o, r)
  }

  /** A frame of the current transfer met a full orphan list. */
  ghost predicate Lost(disk: Disk, s: SenderView, r: ReceiverView) {
    s.outgoing.Some? && s.outgoing.value.revisionId in disk.tables.rows
    && 0 <= Delivered(s, s.outgoing.value) <= s.outgoing.value.nextChunk <= |s.outgoing.value.slices|
    && Delivered(s, s.outgoing.value) > MAX_ORPHAN_FRAMES
    && (InStage(disk, s, s.outgoing.value, r, HeaderOnTheWay) || InStage(disk, s, s.outgoing.value, r, Incomplete))
  }

  lemma LinkInStage(disk: Disk, chunkBytes: nat, s: SenderView, r: ReceiverView, stage: Stage)
    requires chunkBytes > 0 && s.outgoing.Some? && Aligned(disk, chunkBytes, s, s.outgoing.value, r)
    requires InStage(disk, s, s.outgoing.value, r, stage)
    ensures Link(disk, chunkBytes, s, r)
    ensures Delivered(s, s.outgoing.value) > MAX_ORPHAN_FRAMES && (stage == HeaderOnTheWay || stage == Incomplete) ==> Lost(disk, s, r)
  {
  }

  /** The next frame to be delivered would be dropped. */
  ghost predicate DropsNext(s: SenderView, r: ReceiverView) {
    s.inFlight != [] && s.inFlight[0].transferSeq !in r.receiver.assemblers && |r.receiver.orphans| >= MAX_ORPHAN_FRAMES
  }

  // ---- steps of the sender -----------------------------------------------------

  lemma StartLink(disk: Disk, chunkBytes: nat, s: SenderView, r: ReceiverView, o: Outgoing)
    requires chunkBytes > 0 && Link(disk, chunkBytes, s, r) && s.outgoing.None? && s.active && s.toServe != []
    requires o.revisionId == s.toServe[0] && o.transferSeq == s.transferSeq + 1 && o.nextChunk == 0 && o.ack == None
    requires Serves(disk, chunkBytes, o)
    ensures Link(disk, chunkBytes,
      s.(toServe := s.toServe[1..], transferSeq := o.transferSeq, outgoing := Some(o), headers := [TransferOf(disk, o).header]), r)
    ensures !Lost(disk, s.(toServe := s.toServe[1..], transferSeq := o.transferSeq, outgoing := Some(o), headers := [TransferOf(disk, o).header]), r)
  {
    var s' := s.(toServe := s.toServe[1..], transferSeq := o.transferSeq, outgoing := Some(o), headers := [TransferOf(disk, o).header]);
    assert InStage(disk, s', o, r, HeaderOnTheWay);
  }

  lemma PushLink(disk: Disk, chunkBytes: nat, s: SenderView, r: ReceiverView)
    requires chunkBytes > 0 && Link(disk, chunkBytes, s, r) && s.outgoing.Some?
    requires s.outgoing.value.nextChunk < |s.outgoing.value.slices|
    ensures var o := s.outgoing.value;
      var s' := s.(inFlight := s.inFlight + [FrameOf(o, o.nextChunk)], outgoing := Some(o.(nextChunk := o.nextChunk + 1)));
      Link(disk, chunkBytes, s', r) && (Lost(disk, s, r) <==> Lost(disk, s', r))
  {
    var o := s.outgoing.value;
    var o' := o.(nextChunk := o.nextChunk + 1);
    var s' := s.(inFlight := s.inFlight + [FrameOf(o, o.nextChunk)], outgoing := Some(o'));
    assert Delivered(s', o') == Delivered(s, o) && TransferOf(disk, o') == TransferOf(disk, o);
    forall stage
      ensures InStage(disk, s, o, r, stage) <==> InStage(disk, s', o', r, stage)
    {
    }
  }

  lemma FinishLink(disk: Disk, chunkBytes: nat, s: SenderView, r: ReceiverView)
    requires chunkBytes > 0 && Link(disk, chunkBytes, s, r) && s.outgoing.Some?
    requires s.outgoing.value.nextChunk == |s.outgoing.value.slices| && s.outgoing.value.ack.Some?
    ensures s.outgoing.value.ack == Some(true)
    ensures Link(disk, chunkBytes, s.(outgoing := None, sent := s.sent + [s.outgoing.value.revisionId]), r)
    ensures !Lost(disk, s, r)
  {
  }

  // ---- steps of the receiver ---------------------------------------------------

  /** The indices `n` to `d` exclusive. */
  ghost function Range(n: nat, d: nat): set<nat> {
    Indices(d) - Indices(n)
  }

  lemma {:induction false} IndicesDiffer(a: nat, b: nat)
    ensures Indices(a) == Indices(b) <==> a == b
  {
    assert |Indices(a)| == a && |Indices(b)| == b;
  }

  lemma RangeStep(n: nat, d: nat)
    requires 0 < n <= d
    ensures Range(n, d) + {n - 1} == Range(n - 1, d)
  {
  }

  /** Only the assembly is open: what one genuine frame makes of it. */
  lemma TakeOne(t: Transfer, r: Receiver, have: set<nat>, f: ChunkFrame)
    requires t.Valid() && r.assemblers.Keys == {t.Seq()} && Partial(t, r.assemblers[t.Seq()], have)
    requires f.transferSeq == t.Seq() && t.Genuine(f)
    ensures OnFrame(r, f).orphans == r.orphans && OnFrame(r, f).refused == r.refused
    ensures have + {f.chunkIndex} == Indices(|t.slices|) ==>
      OnFrame(r, f).assemblers == map[] && OnFrame(r, f).ready == r.ready + [Delivery(t.header, Flatten(t.slices))]
    ensures have + {f.chunkIndex} != Indices(|t.slices|) ==>
      && OnFrame(r, f).assemblers.Keys == {t.Seq()} && OnFrame(r, f).ready == r.ready
      && Partial(t, OnFrame(r, f).assemblers[t.Seq()], have + {f.chunkIndex})
  {
    GenuineAccepted(t, r.assemblers[t.Seq()], have, f);
  }

  ghost predicate OnlyOpen(t: Transfer, r: Receiver, orphans: seq<ChunkFrame>, have: set<nat>) {
    && r.assemblers.Keys == {t.Seq()} && Partial(t, r.assemblers[t.Seq()], have)
    && r.orphans == orphans && r.ready == [] && r.refused == []
  }

  /** The newest of the first `n` waiting frames is handed over. */
  lemma NewestTaken(t: Transfer, r: Receiver, fs: seq<ChunkFrame>, n: nat, d: nat)
    requires t.Valid() && 0 < n <= d == |fs| <= |t.slices|
    requires fs[n - 1] == ChunkFrame(t.Seq(), n - 1, t.slices[n - 1])
    requires OnlyOpen(t, r, fs[..n], Range(n, d))
    ensures if n == 1 && d == |t.slices|
            then HandOver(r, n - 1) == Receiver(map[], fs[..0], [Delivery(t.header, Flatten(t.slices))], [])
            else OnlyOpen(t, HandOver(r, n - 1), fs[..n - 1], Range(n - 1, d))
  {
    hide Partial, OnFrame, Indices, Flatten;
    RangeStep(n, d);
    RangeFull(n - 1, d, |t.slices|);
    hide Range;
    var f := fs[n - 1];
    assert r.orphans[n - 1] == f && Without(r.orphans, n - 1) == fs[..n - 1];
    TakeOne(t, r.(orphans := fs[..n - 1]), Range(n, d), f);
  }

  /** The header meets the waiting frames, newest first; the last one handed over may complete the revision. */
  lemma {:induction false} OrphansReplayed(t: Transfer, r: Receiver, fs: seq<ChunkFrame>, n: nat, d: nat)
    returns (result: Receiver)
    requires t.Valid() && n <= d == |fs| <= |t.slices|
    requires forall i :: 0 <= i < d ==> fs[i] == ChunkFrame(t.Seq(), i, t.slices[i])
    requires OnlyOpen(t, r, fs[..n], Range(n, d))
    ensures result == ReplayOrphans(r, t.Seq(), n)
    ensures if d == |t.slices| then result == Receiver(map[], [], [Delivery(t.header, Flatten(t.slices))], [])
            else HasFirst(t, result, d)
    decreases n
  {
    hide Partial, OnFrame, HandOver, Flatten, Range, Indices;
    if n == 0 {
      AllReplayed(t, r, fs, d);
      result := r;
    } else {
      assert r.orphans[n - 1] == fs[n - 1];
      NewestTaken(t, r, fs, n, d);
      if n == 1 && d == |t.slices| {
        assert fs[..0] == [];
        result := HandOver(r, n - 1);
      } else {
        result := OrphansReplayed(t, HandOver(r, n - 1), fs, n - 1, d);
      }
    }
  }

  lemma AllReplayed(t: Transfer, r: Receiver, fs: seq<ChunkFrame>, d: nat)
    requires t.Valid() && d == |fs| <= |t.slices| && OnlyOpen(t, r, fs[..0], Range(0, d))
    ensures d < |t.slices| && HasFirst(t, r, d)
  {
    RangeFull(0, d, |t.slices|);
    assert Range(0, d) == Indices(d);
  }

  lemma {:induction false} RangeFull(n: nat, d: nat, total: nat)
    requires d <= total && 0 < total
    ensures Range(n, d) == Indices(total) <==> n == 0 && d == total
  {
    assert 0 in Indices(total) && total - 1 in Indices(total);
    assert Indices(0) == {};
  }

  lemma EmptyIsPartial(t: Transfer, fs: seq<ChunkFrame>)
    requires t.Valid()
    ensures Partial(t, Opened(Receiver(map[], fs, [], []), t.header).assemblers[t.Seq()], Range(|fs|, |fs|))
    ensures t.header.totalChunks > 0
  {
    EmptyWeight(t.header.totalChunks);
    IndicesDiffer(0, |t.slices|);
    assert Range(|fs|, |fs|) == {} == Indices(0);
  }

  /** What the header makes of an otherwise idle receiver with `fs` waiting. */
  lemma HeaderMeetsOrphans(t: Transfer, fs: seq<ChunkFrame>)
    requires t.Valid() && |fs| <= |t.slices| && forall i :: 0 <= i < |fs| ==> fs[i] == ChunkFrame(t.Seq(), i, t.slices[i])
    ensures var result := OnHeader(Receiver(map[], fs, [], []), t.header);
      if |fs| == |t.slices| then result == Receiver(map[], [], [Delivery(t.header, Flatten(t.slices))], [])
      else HasFirst(t, result, |fs|)
  {
    hide Partial, OnFrame, ReplayOrphans, Range, Indices;
    var start := Opened(Receiver(map[], fs, [], []), t.header);
    EmptyIsPartial(t, fs);
    assert fs[..|fs|] == fs;
    var _ := OrphansReplayed(t, start, fs, |fs|, |fs|);
  }

  /** The header arrives. */
  lemma HeaderLink(disk: Disk, chunkBytes: nat, s: SenderView, r: ReceiverView)
    requires chunkBytes > 0 && Link(disk, chunkBytes, s, r) && s.headers != []
    ensures |s.headers| == 1 && OnHeader(r.receiver, s.headers[0]).refused == []
    ensures |OnHeader(r.receiver, s.headers[0]).ready| <= |r.receiver.ready| + 1
    ensures var s', r' := s.(headers := []), r.(receiver := OnHeader(r.receiver, s.headers[0]));
      Link(disk, chunkBytes, s', r') && (Lost(disk, s, r) <==> Lost(disk, s', r'))
  {
    ServedTransferValid(disk, chunkBytes, s.outgoing.value);
    hide Serves, Partial, HasFirst, HasGap, OnHeader, FramesFrom;
    HeaderMet(disk, chunkBytes, s, r);
  }

  lemma HeaderMet(disk: Disk, chunkBytes: nat, s: SenderView, r: ReceiverView)
    requires chunkBytes > 0 && s.outgoing.Some? && Aligned(disk, chunkBytes, s, s.outgoing.value, r)
    requires s.outgoing.value.revisionId in disk.tables.rows && TransferOf(disk, s.outgoing.value).Valid()
    requires InStage(disk, s, s.outgoing.value, r, HeaderOnTheWay)
    ensures OnHeader(r.receiver, s.headers[0]).refused == [] && |OnHeader(r.receiver, s.headers[0]).ready| <= 1
    ensures var s', r' := s.(headers := []), r.(receiver := OnHeader(r.receiver, s.headers[0]));
      Link(disk, chunkBytes, s', r') && (Lost(disk, s, r) <==> Lost(disk, s', r'))
  {
    var o := s.outgoing.value;
    var t, fs, d := TransferOf(disk, o), r.receiver.orphans, Delivered(s, o);
    assert s.headers[0] == t.header;
    HeaderMeetsOrphans(t, fs);
    var result := OnHeader(r.receiver, t.header);
    var s', r' := s.(headers := []), r.(receiver := result);
    AlignedWithoutHeader(disk, chunkBytes, s, o, r, result);
    hide Aligned, OnHeader, Partial, Serves;
    if d <= MAX_ORPHAN_FRAMES {
      LinkInStage(disk, chunkBytes, s', r', if d == |o.slices| then Stage.Ready else Stage.Collecting);
    } else {
      GapAfterSixtyFour(t, result);
      LinkInStage(disk, chunkBytes, s', r', Incomplete);
    }
  }

  lemma AlignedWithoutHeader(disk: Disk, chunkBytes: nat, s: SenderView, o: Outgoing, r: ReceiverView, receiver: Receiver)
    requires chunkBytes > 0 && Aligned(disk, chunkBytes, s, o, r)
    ensures Aligned(disk, chunkBytes, s.(headers := []), o, r.(receiver := receiver))
  {
    hide Serves;
  }

  lemma GapAfterSixtyFour(t: Transfer, r: Receiver)
    requires HasFirst(t, r, MAX_ORPHAN_FRAMES)
    ensures HasGap(t, r)
  {
    assert MAX_ORPHAN_FRAMES !in Indices(MAX_ORPHAN_FRAMES);
  }

  /** A frame arrives; a full orphan list drops it, and then slice sixty-four is gone for good. */
  lemma FrameLink(disk: Disk, chunkBytes: nat, s: SenderView, r: ReceiverView)
    requires chunkBytes > 0 && Link(disk, chunkBytes, s, r) && s.inFlight != []
    ensures OnFrame(r.receiver, s.inFlight[0]).refused == []
    ensures var s', r' := s.(inFlight := s.inFlight[1..]), r.(receiver := OnFrame(r.receiver, s.inFlight[0]));
      && Link(disk, chunkBytes, s', r')
      && (Lost(disk, s', r') <==> Lost(disk, s, r) || DropsNext(s, r))
  {
    var o, f := s.outgoing.value, s.inFlight[0];
    ServedTransferValid(disk, chunkBytes, o);
    if InStage(disk, s, o, r, HeaderOnTheWay) {
      hide HasFirst, HasGap, Serves, Partial;
      FrameWaits(disk, chunkBytes, s, r);
    } else if InStage(disk, s, o, r, Stage.Collecting) {
      hide Serves, Partial;
      FrameCollected(disk, chunkBytes, s, r);
    } else {
      hide Serves, Partial;
      FrameAfterGap(disk, chunkBytes, s, r);
    }
  }

  lemma NextFrame(disk: Disk, chunkBytes: nat, s: SenderView, r: ReceiverView)
    requires chunkBytes > 0 && s.outgoing.Some? && Aligned(disk, chunkBytes, s, s.outgoing.value, r) && s.inFlight != []
    ensures var o, s' := s.outgoing.value, s.(inFlight := s.inFlight[1..]);
      && Delivered(s, o) < |o.slices| && s.inFlight[0] == FrameOf(o, Delivered(s, o)) && Delivered(s', o) == Delivered(s, o) + 1
      && TransferOf(disk, o).Genuine(s.inFlight[0])
      && forall receiver :: Aligned(disk, chunkBytes, s', o, r.(receiver := receiver))
  {
    hide Serves;
    FramesTail(s.outgoing.value, s.inFlight, Delivered(s, s.outgoing.value));
  }

  lemma FrameWaits(disk: Disk, chunkBytes: nat, s: SenderView, r: ReceiverView)
    requires chunkBytes > 0 && s.outgoing.Some? && Aligned(disk, chunkBytes, s, s.outgoing.value, r) && s.inFlight != []
    requires s.outgoing.value.revisionId in disk.tables.rows
    requires InStage(disk, s, s.outgoing.value, r, HeaderOnTheWay)
    ensures OnFrame(r.receiver, s.inFlight[0]).refused == []
    ensures var s', r' := s.(inFlight := s.inFlight[1..]), r.(receiver := OnFrame(r.receiver, s.inFlight[0]));
      Link(disk, chunkBytes, s', r') && (Lost(disk, s', r') <==> Lost(disk, s, r) || DropsNext(s, r))
  {
    NextFrame(disk, chunkBytes, s, r);
    hide Aligned, HasFirst, HasGap;
    var o, d := s.outgoing.value, Delivered(s, s.outgoing.value);
    WaitingFrame(o, r.receiver.orphans, d);
    LinkInStage(disk, chunkBytes, s.(inFlight := s.inFlight[1..]), r.(receiver := OnFrame(r.receiver, s.inFlight[0])), HeaderOnTheWay);
  }

  lemma FrameCollected(disk: Disk, chunkBytes: nat, s: SenderView, r: ReceiverView)
    requires chunkBytes > 0 && s.outgoing.Some? && Aligned(disk, chunkBytes, s, s.outgoing.value, r) && s.inFlight != []
    requires s.outgoing.value.revisionId in disk.tables.rows && TransferOf(disk, s.outgoing.value).Valid()
    requires InStage(disk, s, s.outgoing.value, r, Stage.Collecting)
    ensures OnFrame(r.receiver, s.inFlight[0]).refused == []
    ensures var s', r' := s.(inFlight := s.inFlight[1..]), r.(receiver := OnFrame(r.receiver, s.inFlight[0]));
      Link(disk, chunkBytes, s', r') && !Lost(disk, s', r') && !Lost(disk, s, r) && !DropsNext(s, r)
  {
    NextFrame(disk, chunkBytes, s, r);
    var o, f := s.outgoing.value, s.inFlight[0];
    var s', r' := s.(inFlight := s.inFlight[1..]), r.(receiver := OnFrame(r.receiver, f));
    NotLost(disk, s, r, Stage.Collecting);
    CollectedStage(disk, s, r);
    hide Aligned, OnFrame, Link, InStage, Lost, Flatten, FrameOf, TransferOf;
    var stage := if Delivered(s', o) == |o.slices| then Stage.Ready else Stage.Collecting;
    NotLost(disk, s', r', stage);
    LinkInStage(disk, chunkBytes, s', r', stage);
  }

  lemma CollectedStage(disk: Disk, s: SenderView, r: ReceiverView)
    requires s.outgoing.Some? && s.outgoing.value.revisionId in disk.tables.rows && TransferOf(disk, s.outgoing.value).Valid()
    requires var o := s.outgoing.value;
      && s.inFlight != [] && 0 <= Delivered(s, o) < o.nextChunk <= |o.slices|
      && InStage(disk, s, o, r, Stage.Collecting) && s.inFlight[0] == FrameOf(o, Delivered(s, o))
    ensures OnFrame(r.receiver, s.inFlight[0]).refused == [] && !DropsNext(s, r)
    ensures var o, s' := s.outgoing.value, s.(inFlight := s.inFlight[1..]);
      InStage(disk, s', o, r.(receiver := OnFrame(r.receiver, s.inFlight[0])),
        if Delivered(s', o) == |o.slices| then Stage.Ready else Stage.Collecting)
  {
    hide OnFrame, Partial, HasGap, Flatten;
    var o, f := s.outgoing.value, s.inFlight[0];
    CollectingFrame(TransferOf(disk, o), r.receiver, Delivered(s, o), f);
  }

  /** Only a header still on the way, or a gap, can go with a lost frame. */
  lemma NotLost(disk: Disk, s: SenderView, r: ReceiverView, stage: Stage)
    requires s.outgoing.Some? && s.outgoing.value.revisionId in disk.tables.rows
    requires 0 <= Delivered(s, s.outgoing.value) <= s.outgoing.value.nextChunk <= |s.outgoing.value.slices|
    requires InStage(disk, s, s.outgoing.value, r, stage) && stage != HeaderOnTheWay && stage != Incomplete
    ensures !Lost(disk, s, r)
  {
    hide Partial;
    if stage == Stage.Collecting {
      var o := s.outgoing.value;
      CollectingKeepsAll(TransferOf(disk, o), r.receiver, Delivered(s, o));
    }
  }

  /** A receiver that has every slice so far has no gap. */
  lemma CollectingKeepsAll(t: Transfer, r: Receiver, d: nat)
    requires HasFirst(t, r, d)
    ensures d > MAX_ORPHAN_FRAMES ==> !HasGap(t, r)
  {
    assert d > MAX_ORPHAN_FRAMES ==> MAX_ORPHAN_FRAMES in Indices(d);
  }

  lemma FrameAfterGap(disk: Disk, chunkBytes: nat, s: SenderView, r: ReceiverView)
    requires chunkBytes > 0 && s.outgoing.Some? && Aligned(disk, chunkBytes, s, s.outgoing.value, r) && s.inFlight != []
    requires s.outgoing.value.revisionId in disk.tables.rows && TransferOf(disk, s.outgoing.value).Valid()
    requires InStage(disk, s, s.outgoing.value, r, Incomplete)
    ensures OnFrame(r.receiver, s.inFlight[0]).refused == []
    ensures var s', r' := s.(inFlight := s.inFlight[1..]), r.(receiver := OnFrame(r.receiver, s.inFlight[0]));
      Link(disk, chunkBytes, s', r') && Lost(disk, s', r') && Lost(disk, s, r)
  {
    NextFrame(disk, chunkBytes, s, r);
    hide Aligned, OnFrame, Partial, HasFirst, Serves, Link;
    var o, f := s.outgoing.value, s.inFlight[0];
    GapFrame(TransferOf(disk, o), r.receiver, f);
    LinkInStage(disk, chunkBytes, s.(inFlight := s.inFlight[1..]), r.(receiver := OnFrame(r.receiver, f)), Incomplete);
  }

  lemma FramesTail(o: Outgoing, fs: seq<ChunkFrame>, from: nat)
    requires fs != [] && FramesFrom(o, fs, from)
    ensures FramesFrom(o, fs[1..], from + 1)
  {
    forall i | 0 <= i < |fs| - 1
      ensures fs[1..][i] == FrameOf(o, from + 1 + i)
    {
      assert fs[i + 1] == FrameOf(o, from + (i + 1));
    }
  }

  lemma WaitingFrame(o: Outgoing, fs: seq<ChunkFrame>, d: nat)
    requires d < |o.slices| && FramesFrom(o, fs, 0) && |fs| == Min(d, MAX_ORPHAN_FRAMES)
    ensures var fs' := if |fs| < MAX_ORPHAN_FRAMES then fs + [FrameOf(o, d)] else fs;
      FramesFrom(o, fs', 0) && |fs'| == Min(d + 1, MAX_ORPHAN_FRAMES)
  {
  }

  lemma CollectingFrame(t: Transfer, r: Receiver, d: nat, f: ChunkFrame)
    requires t.Valid() && HasFirst(t, r, d) && d < |t.slices| && f == ChunkFrame(t.Seq(), d, t.slices[d])
    ensures if d + 1 == |t.slices| then OnFrame(r, f) == Receiver(map[], [], [Delivery(t.header, Flatten(t.slices))], [])
            else HasFirst(t, OnFrame(r, f), d + 1)
  {
    TakeOne(t, r, Indices(d), f);
    assert Indices(d) + {d} == Indices(d + 1);
    IndicesDiffer(d + 1, |t.slices|);
  }

  lemma GapFrame(t: Transfer, r: Receiver, f: ChunkFrame)
    requires t.Valid() && HasGap(t, r) && f.transferSeq == t.Seq() && t.Genuine(f) && f.chunkIndex > MAX_ORPHAN_FRAMES
    ensures HasGap(t, OnFrame(r, f))
  {
    var e := r.assemblers[t.Seq()];
    var have := e.assembly.chunks.Keys;
    GenuineNotRefused(t, e, have, f);
    TakeOne(t, r, have, f);
    assert MAX_ORPHAN_FRAMES in Indices(|t.slices|);
    assert MAX_ORPHAN_FRAMES !in have + {f.chunkIndex};
  }

  /** The finished revision is ingested and accepted. */
  lemma IngestLink(disk: Disk, chunkBytes: nat, s: SenderView, r: ReceiverView)
    requires chunkBytes > 0 && Link(disk, chunkBytes, s, r) && r.receiver.ready != []
    ensures s.outgoing.Some? && s.outgoing.value.revisionId in disk.tables.rows
    ensures var o := s.outgoing.value;
      && r.receiver == Receiver(map[], [], [Delivery(TransferOf(disk, o).header, Flatten(o.slices))], [])
      && Flatten(o.slices) == BytesOf(disk, o.revisionId)
      && o.revisionId == r.wanted[|r.received|] && r.acks == [] && |r.received| < |r.wanted|
      && r.received == r.wanted[..|r.received|]
      && Link(disk, chunkBytes, s, r.(receiver := IDLE, received := r.received + [o.revisionId], acks := [(o.revisionId, true)]))
    ensures !Lost(disk, s, r)
  {
    var o := s.outgoing.value;
    ServedTransferValid(disk, chunkBytes, o);
    assert InStage(disk, s, o, r, Stage.Ready);
    var r' := r.(receiver := IDLE, received := r.received + [o.revisionId], acks := [(o.revisionId, true)]);
    assert InStage(disk, s, o, r', Answering);
  }

  /** The answer arrives. */
  lemma AckLink(disk: Disk, chunkBytes: nat, s: SenderView, r: ReceiverView)
    requires chunkBytes > 0 && Link(disk, chunkBytes, s, r) && r.acks != []
    ensures s.outgoing.Some? && s.outgoing.value.ack == None && r.acks == [(s.outgoing.value.revisionId, true)]
    ensures Link(disk, chunkBytes, s.(outgoing := Some(s.outgoing.value.(ack := Some(true)))), r.(acks := []))
    ensures !Lost(disk, s, r)
  {
    var o := s.outgoing.value;
    assert InStage(disk, s, o, r, Answering);
    var o' := o.(ack := Some(true));
    var s', r' := s.(outgoing := Some(o')), r.(acks := []);
    assert TransferOf(disk, o') == TransferOf(disk, o);
    assert InStage(disk, s', o', r', Answered);
  }

  /** The want list arrives. */
  lemma ActivateLink(disk: Disk, chunkBytes: nat, s: SenderView, r: ReceiverView)
    requires chunkBytes > 0 && Link(disk, chunkBytes, s, r) && !s.active
    ensures Link(disk, chunkBytes, s.(active := true, toServe := r.wanted), r)
    ensures s.outgoing.None? && r.received == []
  {
    assert r.wanted[0..] == r.wanted;
  }

  /** Whatever the stage, what has been received is the served part of the want list, in order. */
  lemma ReceivedIsPrefix(disk: Disk, chunkBytes: nat, s: SenderView, r: ReceiverView)
    requires chunkBytes > 0 && Link(disk, chunkBytes, s, r)
    ensures |r.received| <= |r.wanted| && r.received == r.wanted[..|r.received|]
    ensures r.receiver.refused == []
    ensures s.outgoing.None? && s.active && s.toServe == [] ==> r.received == r.wanted == s.sent
  {
  }

  /** With nothing on the way and nothing to ingest, a transfer that lost no frame is either still being pushed or answered. */
  lemma QuietMeansSenderCanGo(disk: Disk, chunkBytes: nat, s: SenderView, r: ReceiverView)
    requires chunkBytes > 0 && Link(disk, chunkBytes, s, r) && s.outgoing.Some? && !Lost(disk, s, r)
    requires s.inFlight == [] && s.headers == [] && r.acks == [] && r.receiver.ready == []
    ensures s.outgoing.value.nextChunk < |s.outgoing.value.slices| || s.outgoing.value.ack.Some?
  {
    var o := s.outgoing.value;
    if InStage(disk, s, o, r, Stage.Collecting) {
      IndicesDiffer(Delivered(s, o), |o.slices|);
    }
  }

  /** A frame can be delivered without a drop unless sixty-four already wait for a header on the way. */
  lemma FrameOrHeader(disk: Disk, chunkBytes: nat, s: SenderView, r: ReceiverView)
    requires chunkBytes > 0 && Link(disk, chunkBytes, s, r) && s.inFlight != [] && s.headers == []
    ensures s.inFlight[0].transferSeq in r.receiver.assemblers
  {
  }
}
