/**
 One transfer among many, its header and frames arriving in any order and any number of times:
 the receiver puts together exactly the bytes that were cut, once, when and only when everything
 has arrived, unless a frame was dropped.
 */
module TransferConfluence {
  import opened Basics
  import opened Framing
  import opened Chunks
  import opened Store
  import opened Messages
  import opened Inbound

  datatype Event = HeaderArrives(header: Header) | FrameArrives(frame: ChunkFrame)

  /** What is being sent: a header and the slices of the bytes it describes. */
  datatype Transfer = Transfer(header: Header, slices: seq<Bytes>) {
    ghost predicate Valid() {
      |slices| > 0 && header.totalChunks == |slices| && header.sizeBytes == |Flatten(slices)|
    }

    function Seq(): nat {
      header.transferSeq
    }

    /** A frame of another transfer, or one the sender of this transfer may have produced. */
    ghost predicate Genuine(f: ChunkFrame) {
      f.transferSeq == Seq() ==> f.chunkIndex < |slices| && f.payload == slices[f.chunkIndex]
    }
  }

  /** What a sender cuts is such a transfer, and it flattens to the revision's bytes. */
  lemma SentTransferValid(h: Header, bytes: Bytes, chunkBytes: nat)
    requires chunkBytes > 0 && h.sizeBytes == |bytes| && h.totalChunks == ChunkCountFor(|bytes|, chunkBytes)
    ensures Transfer(h, SlicesOf(bytes, chunkBytes)).Valid() && Flatten(SlicesOf(bytes, chunkBytes)) == bytes
  {
    SlicesTile(bytes, chunkBytes);
  }

  function React(r: Receiver, e: Event): Receiver {
    match e
    case HeaderArrives(h) => OnHeader(r, h)
    case FrameArrives(f) => OnFrame(r, f)
  }

  function ReactAll(r: Receiver, es: seq<Event>): Receiver {
    if |es| == 0 then r else React(ReactAll(r, es[..|es| - 1]), es[|es| - 1])
  }

  /** The transfer's events are its own header, at most once, and its own slices; other transfers are free. */
  ghost predicate OwnEvents(t: Transfer, es: seq<Event>) {
    && (forall i :: 0 <= i < |es| && es[i].FrameArrives? ==> t.Genuine(es[i].frame))
    && (forall i :: 0 <= i < |es| && es[i].HeaderArrives? && es[i].header.transferSeq == t.Seq() ==> es[i].header == t.header)
    && (forall i, j :: 0 <= i < j < |es| && es[i] == HeaderArrives(t.header) ==> es[j] != HeaderArrives(t.header))
  }

  /** The event loses a frame of the transfer: its header is not in and the orphan list is full. */
  ghost predicate Drops(t: Transfer, r: Receiver, e: Event) {
    e.FrameArrives? && e.frame.transferSeq == t.Seq() && t.Seq() !in r.assemblers && |r.orphans| >= MAX_ORPHAN_FRAMES
  }

  ghost function OwnIndex(t: Transfer, e: Event): set<nat> {
    if e.FrameArrives? && e.frame.transferSeq == t.Seq() then {e.frame.chunkIndex} else {}
  }

  /** The indices of the transfer's frames that arrived. */
  ghost function Arrived(t: Transfer, es: seq<Event>): set<nat> {
    if |es| == 0 then {} else Arrived(t, es[..|es| - 1]) + OwnIndex(t, es[|es| - 1])
  }

  /** The indices of the transfer's frames that arrived and were not dropped. */
  ghost function Kept(t: Transfer, r: Receiver, es: seq<Event>): set<nat> {
    if |es| == 0 then {}
    else
      var earlier, e := es[..|es| - 1], es[|es| - 1];
      Kept(t, r, earlier) + if Drops(t, ReactAll(r, earlier), e) then {} else OwnIndex(t, e)
  }

  ghost predicate NoneDropped(t: Transfer, r: Receiver, es: seq<Event>) {
    |es| > 0 ==>
      NoneDropped(t, r, es[..|es| - 1]) && !Drops(t, ReactAll(r, es[..|es| - 1]), es[|es| - 1])
  }

  lemma {:induction false} NoneDroppedKeepsAll(t: Transfer, r: Receiver, es: seq<Event>)
    requires NoneDropped(t, r, es)
    ensures Kept(t, r, es) == Arrived(t, es)
  {
    if |es| > 0 {
      NoneDroppedKeepsAll(t, r, es[..|es| - 1]);
    }
  }

  ghost predicate HeaderSeen(t: Transfer, es: seq<Event>) {
    HeaderArrives(t.header) in es
  }

  /** The whole revisions the receiver produced for the transfer. */
  function ReadyFor(ready: seq<Delivery>, s: nat): seq<Delivery> {
    if |ready| == 0 then []
    else
      var rest := ReadyFor(ready[..|ready| - 1], s);
      if ready[|ready| - 1].header.transferSeq == s then rest + [ready[|ready| - 1]] else rest
  }

  lemma {:induction false} ReadyForAppend(ready: seq<Delivery>, d: Delivery, s: nat)
    ensures ReadyFor(ready + [d], s) == ReadyFor(ready, s) + if d.header.transferSeq == s then [d] else []
  {
    assert (ready + [d])[..|ready|] == ready;
  }

  // ---- the invariant -------------------------------------------------------

  /** The indices of the transfer's frames among the first `n` orphans. */
  ghost function Waiting(t: Transfer, orphans: seq<ChunkFrame>, n: nat): set<nat>
    requires n <= |orphans|
  {
    if n == 0 then {}
    else Waiting(t, orphans, n - 1) + if orphans[n - 1].transferSeq == t.Seq() then {orphans[n - 1].chunkIndex} else {}
  }

  ghost predicate AllGenuine(t: Transfer, orphans: seq<ChunkFrame>) {
    forall i :: 0 <= i < |orphans| ==> t.Genuine(orphans[i])
  }

  /** The open assembly of the transfer holds genuine slices, not all of them. */
  ghost predicate Partial(t: Transfer, e: Incoming, have: set<nat>) {
    && e.header == t.header && e.assembly.Valid()
    && e.assembly.totalChunks == t.header.totalChunks && e.assembly.expectedSizeBytes == t.header.sizeBytes
    && GenuineChunks(t.slices, e.assembly.chunks)
    && e.assembly.chunks.Keys == have
    && have != Indices(|t.slices|)
  }

  ghost predicate Done(t: Transfer, r: Receiver) {
    t.Seq() !in r.assemblers && ReadyFor(r.ready, t.Seq()) == [Delivery(t.header, Flatten(t.slices))]
  }

  /** After the header: the assembly has `have`, or everything was there and was delivered. */
  ghost predicate Collected(t: Transfer, r: Receiver, have: set<nat>) {
    if t.Seq() in r.assemblers then
      Partial(t, r.assemblers[t.Seq()], have) && ReadyFor(r.ready, t.Seq()) == []
    else have == Indices(|t.slices|) && Done(t, r)
  }

  /** Before the header: the frames wait. */
  ghost predicate Expecting(t: Transfer, r: Receiver, have: set<nat>) {
    t.Seq() !in r.assemblers && Waiting(t, r.orphans, |r.orphans|) == have && ReadyFor(r.ready, t.Seq()) == []
  }

  ghost predicate Tracks(t: Transfer, r: Receiver, seen: bool, have: set<nat>) {
    AllGenuine(t, r.orphans) && if seen then Collected(t, r, have) else Expecting(t, r, have)
  }

  /** An assembly of genuine slices refuses no genuine slice and takes exactly its index. */
  lemma GenuineNotRefused(t: Transfer, e: Incoming, have: set<nat>, f: ChunkFrame)
    requires t.Valid() && Partial(t, e, have) && f.transferSeq == t.Seq() && t.Genuine(f)
    ensures !e.assembly.Refuses(f)
    ensures e.assembly.Accept(f).chunks == e.assembly.chunks[f.chunkIndex := f.payload]
  {
    var a, n := e.assembly, |t.slices|;
    var filled := a.chunks[f.chunkIndex := f.payload];
    assert t.slices[..n] == t.slices;
    GenuineWeight(t.slices, filled, n);
    if f.chunkIndex in a.chunks {
      assert filled == a.chunks;
    } else {
      WeightAdds(a.chunks, f.chunkIndex, f.payload, n);
    }
  }

  /** Genuine slices of every index are complete and join to the revision; fewer are neither. */
  lemma GenuineComplete(t: Transfer, a: Assembly)
    requires t.Valid() && a.Valid() && GenuineChunks(t.slices, a.chunks)
    requires a.totalChunks == |t.slices| && a.expectedSizeBytes == t.header.sizeBytes
    ensures a.IsComplete() <==> a.chunks.Keys == Indices(|t.slices|)
    ensures a.IsComplete() ==> Joined(a.chunks, a.totalChunks) == Flatten(t.slices)
  {
    var n := |t.slices|;
    assert t.slices[..n] == t.slices;
    a.CompleteMeansAllPresent();
    if a.chunks.Keys == Indices(n) {
      assert forall i: nat :: i < n ==> i in Indices(n);
      GenuineJoin(t.slices, a.chunks, n);
    }
    if a.IsComplete() {
      assert forall i :: i in a.chunks.Keys <==> i in Indices(n);
      GenuineJoin(t.slices, a.chunks, n);
    }
  }

  lemma GenuineAccepted(t: Transfer, e: Incoming, have: set<nat>, f: ChunkFrame)
    requires t.Valid() && Partial(t, e, have) && f.transferSeq == t.Seq() && t.Genuine(f)
    ensures !e.assembly.Refuses(f)
    ensures var a := e.assembly.Accept(f);
      if a.IsComplete() then have + {f.chunkIndex} == Indices(|t.slices|) && Joined(a.chunks, a.totalChunks) == Flatten(t.slices)
      else Partial(t, Incoming(t.header, a), have + {f.chunkIndex})
  {
    GenuineNotRefused(t, e, have, f);
    e.assembly.AcceptKeepsValid(f);
    GenuineComplete(t, e.assembly.Accept(f));
  }

  /** A genuine frame of the transfer after its header. */
  lemma OwnFrameCollected(t: Transfer, r: Receiver, f: ChunkFrame, have: set<nat>)
    requires t.Valid() && Collected(t, r, have) && f.transferSeq == t.Seq() && t.Genuine(f)
    ensures Collected(t, OnFrame(r, f), have + {f.chunkIndex})
  {
    if t.Seq() in r.assemblers {
      GenuineAccepted(t, r.assemblers[t.Seq()], have, f);
      ReadyForAppend(r.ready, Delivery(t.header, Flatten(t.slices)), t.Seq());
    } else {
      assert have + {f.chunkIndex} == have;
    }
  }

  lemma {:induction false} WaitingPrefix(t: Transfer, a: seq<ChunkFrame>, b: seq<ChunkFrame>, n: nat)
    requires n <= |a| && n <= |b| && a[..n] == b[..n]
    ensures Waiting(t, a, n) == Waiting(t, b, n)
  {
    if n > 0 {
      assert a[n - 1] == a[..n][n - 1] && b[n - 1] == b[..n][n - 1];
      assert a[..n - 1] == a[..n][..n - 1] && b[..n - 1] == b[..n][..n - 1];
      WaitingPrefix(t, a, b, n - 1);
    }
  }

  /** Where the frames a handler leaves behind can be. */
  lemma OnFrameOrphans(r: Receiver, f: ChunkFrame)
    ensures OnFrame(r, f).orphans == r.orphans || OnFrame(r, f).orphans == r.orphans + [f]
    ensures f.transferSeq in r.assemblers ==> OnFrame(r, f).orphans == r.orphans
  {
  }

  lemma WithoutKeeps(t: Transfer, orphans: seq<ChunkFrame>, i: nat)
    requires i < |orphans| && AllGenuine(t, orphans)
    ensures AllGenuine(t, Without(orphans, i)) && Without(orphans, i)[..i] == orphans[..i]
    ensures |Without(orphans, i)| == |orphans| - 1
  {
    var w := Without(orphans, i);
    assert forall k :: 0 <= k < |w| ==> w[k] == if k < i then orphans[k] else orphans[k + 1];
  }

  /** Handing over the newest of the first `n` waiting frames. */
  lemma NewestCollected(t: Transfer, r: Receiver, n: nat, have: set<nat>)
    requires t.Valid() && 0 < n <= |r.orphans| && AllGenuine(t, r.orphans) && Collected(t, r, have)
    requires r.orphans[n - 1].transferSeq == t.Seq()
    ensures var f := r.orphans[n - 1];
      var r' := HandOver(r, n - 1);
      && n - 1 <= |r'.orphans| && AllGenuine(t, r'.orphans)
      && Collected(t, r', have + {f.chunkIndex})
      && Waiting(t, r'.orphans, n - 1) == Waiting(t, r.orphans, n - 1)
  {
    var f := r.orphans[n - 1];
    var r1 := r.(orphans := Without(r.orphans, n - 1));
    WithoutKeeps(t, r.orphans, n - 1);
    assert t.Genuine(f);
    assert Collected(t, r1, have);
    OwnFrameCollected(t, r1, f, have);
    OnFrameOrphans(r1, f);
    var r2 := OnFrame(r1, f);
    assert r2.orphans[..n - 1] == r1.orphans[..n - 1];
    WaitingPrefix(t, r2.orphans, r.orphans, n - 1);
  }

  /** Handing over the waiting frames, whatever their order, collects exactly them. */
  lemma {:induction false} ReplayCollects(t: Transfer, r: Receiver, n: nat, have: set<nat>, all: set<nat>)
    returns (result: Receiver)
    requires t.Valid() && n <= |r.orphans| && AllGenuine(t, r.orphans) && Collected(t, r, have)
    requires have + Waiting(t, r.orphans, n) == all
    ensures result == ReplayOrphans(r, t.Seq(), n)
    ensures AllGenuine(t, result.orphans) && Collected(t, result, all)
    decreases n
  {
    hide Collected, AllGenuine, HandOver, OnFrame;
    if n == 0 {
      assert have == all;
      result := r;
    } else if r.orphans[n - 1].transferSeq == t.Seq() {
      var x := r.orphans[n - 1].chunkIndex;
      assert have + {x} + Waiting(t, r.orphans, n - 1) == all;
      NewestCollected(t, r, n, have);
      result := ReplayCollects(t, HandOver(r, n - 1), n - 1, have + {x}, all);
    } else {
      assert Waiting(t, r.orphans, n) == Waiting(t, r.orphans, n - 1);
      result := ReplayCollects(t, r, n - 1, have, all);
    }
  }

  // ---- events ------------------------------------------------------------

  lemma OwnHeaderTracked(t: Transfer, r: Receiver, have: set<nat>)
    requires t.Valid() && Tracks(t, r, false, have)
    ensures Tracks(t, OnHeader(r, t.header), true, have)
  {
    var o := Opened(r, t.header);
    EmptyWeight(t.header.totalChunks);
    assert 0 in Indices(|t.slices|);
    assert Partial(t, o.assemblers[t.Seq()], {});
    var _ := ReplayCollects(t, o, |r.orphans|, {}, have);
  }

  lemma OwnFrameTracked(t: Transfer, r: Receiver, seen: bool, have: set<nat>, f: ChunkFrame)
    requires t.Valid() && Tracks(t, r, seen, have) && f.transferSeq == t.Seq() && t.Genuine(f)
    requires !Drops(t, r, FrameArrives(f))
    ensures Tracks(t, OnFrame(r, f), seen, have + {f.chunkIndex})
  {
    OnFrameOrphans(r, f);
    if seen {
      OwnFrameCollected(t, r, f, have);
    } else {
      var orphans := r.orphans + [f];
      assert orphans[..|r.orphans|] == r.orphans[..|r.orphans|];
      WaitingPrefix(t, orphans, r.orphans, |r.orphans|);
    }
  }

  /** Frames of other transfers, wherever they end up, change nothing about this one. */
  lemma OtherFrameTracked(t: Transfer, r: Receiver, seen: bool, have: set<nat>, f: ChunkFrame)
    requires Wellformed(r) && Tracks(t, r, seen, have) && f.transferSeq != t.Seq()
    ensures Tracks(t, OnFrame(r, f), seen, have)
  {
    hide Partial, Flatten, Joined, Indices;
    var r' := OnFrame(r, f);
    OnFrameOrphans(r, f);
    assert t.Seq() in r'.assemblers <==> t.Seq() in r.assemblers;
    if f.transferSeq in r.assemblers {
      var e := r.assemblers[f.transferSeq];
      var a := e.assembly.Accept(f);
      ReadyForAppend(r.ready, Delivery(e.header, Joined(a.chunks, a.totalChunks)), t.Seq());
    }
    if r'.orphans != r.orphans {
      assert r'.orphans[..|r.orphans|] == r.orphans[..|r.orphans|];
      WaitingPrefix(t, r'.orphans, r.orphans, |r.orphans|);
    }
  }

  lemma {:induction false} WaitingWithout(t: Transfer, o: seq<ChunkFrame>, i: nat, n: nat)
    requires i < n <= |o| && o[i].transferSeq != t.Seq()
    ensures Waiting(t, Without(o, i), n - 1) == Waiting(t, o, n)
  {
    var w := Without(o, i);
    if n - 1 == i {
      assert w[..i] == o[..i];
      WaitingPrefix(t, w, o, i);
    } else {
      WaitingWithout(t, o, i, n - 1);
      assert w[n - 2] == o[n - 1];
    }
  }

  /** Taking a foreign frame out of the orphans changes nothing about this transfer. */
  lemma RemovalTracked(t: Transfer, r: Receiver, seen: bool, have: set<nat>, i: nat)
    requires Tracks(t, r, seen, have) && i < |r.orphans| && r.orphans[i].transferSeq != t.Seq()
    ensures Tracks(t, r.(orphans := Without(r.orphans, i)), seen, have)
  {
    WithoutKeeps(t, r.orphans, i);
    WaitingWithout(t, r.orphans, i, |r.orphans|);
  }

  lemma {:induction false} OtherReplayTracked(t: Transfer, r: Receiver, seen: bool, have: set<nat>, s: nat, n: nat)
    requires Wellformed(r) && Tracks(t, r, seen, have) && s != t.Seq() && n <= |r.orphans|
    ensures Tracks(t, ReplayOrphans(r, s, n), seen, have)
    decreases n
  {
    if n > 0 {
      if r.orphans[n - 1].transferSeq == s {
        RemovalTracked(t, r, seen, have, n - 1);
        var r' := r.(orphans := Without(r.orphans, n - 1));
        OtherFrameTracked(t, r', seen, have, r.orphans[n - 1]);
        FrameKeepsWellformed(r', r.orphans[n - 1]);
        OtherReplayTracked(t, HandOver(r, n - 1), seen, have, s, n - 1);
      } else {
        OtherReplayTracked(t, r, seen, have, s, n - 1);
      }
    }
  }

  lemma OtherHeaderTracked(t: Transfer, r: Receiver, seen: bool, have: set<nat>, h: Header)
    requires Wellformed(r) && Tracks(t, r, seen, have) && h.transferSeq != t.Seq()
    ensures Tracks(t, OnHeader(r, h), seen, have)
  {
    if h.totalChunks > 0 {
      EmptyWeight(h.totalChunks);
      OtherReplayTracked(t, Opened(r, h), seen, have, h.transferSeq, |r.orphans|);
    }
  }

  lemma EventTracked(t: Transfer, r: Receiver, seen: bool, have: set<nat>, e: Event)
    requires t.Valid() && Wellformed(r) && Tracks(t, r, seen, have)
    requires e.FrameArrives? ==> t.Genuine(e.frame)
    requires e.HeaderArrives? && e.header.transferSeq == t.Seq() ==> e.header == t.header && !seen
    ensures Tracks(t, React(r, e), seen || e == HeaderArrives(t.header), have + if Drops(t, r, e) then {} else OwnIndex(t, e))
  {
    assert have + {} == have;
    match e
    case HeaderArrives(h) =>
      if h.transferSeq == t.Seq() {
        OwnHeaderTracked(t, r, have);
      } else {
        OtherHeaderTracked(t, r, seen, have, h);
      }
    case FrameArrives(f) =>
      if f.transferSeq != t.Seq() {
        OtherFrameTracked(t, r, seen, have, f);
      } else if !Drops(t, r, e) {
        OwnFrameTracked(t, r, seen, have, f);
      }
  }

  // ---- the theorem ---------------------------------------------------------

  lemma {:induction false} ReactAllWellformed(r: Receiver, es: seq<Event>)
    requires Wellformed(r)
    ensures Wellformed(ReactAll(r, es))
  {
    if |es| > 0 {
      var e, mid := es[|es| - 1], ReactAll(r, es[..|es| - 1]);
      ReactAllWellformed(r, es[..|es| - 1]);
      if e.HeaderArrives? {
        HeaderKeepsWellformed(mid, e.header);
      } else {
        FrameKeepsWellformed(mid, e.frame);
      }
    }
  }

  lemma OwnEventsPrefix(t: Transfer, es: seq<Event>)
    requires |es| > 0 && OwnEvents(t, es)
    ensures OwnEvents(t, es[..|es| - 1])
    ensures HeaderSeen(t, es) <==> HeaderSeen(t, es[..|es| - 1]) || es[|es| - 1] == HeaderArrives(t.header)
    ensures HeaderSeen(t, es[..|es| - 1]) ==> es[|es| - 1] != HeaderArrives(t.header)
  {
    var earlier := es[..|es| - 1];
    assert es == earlier + [es[|es| - 1]];
    if HeaderSeen(t, earlier) {
      var i :| 0 <= i < |earlier| && earlier[i] == HeaderArrives(t.header);
      assert es[i] == HeaderArrives(t.header);
    }
  }

  lemma {:induction false} RunTracked(t: Transfer, r: Receiver, es: seq<Event>)
    requires t.Valid() && Wellformed(r) && Tracks(t, r, false, {}) && OwnEvents(t, es)
    ensures Tracks(t, ReactAll(r, es), HeaderSeen(t, es), Kept(t, r, es))
  {
    if |es| > 0 {
      var earlier, e := es[..|es| - 1], es[|es| - 1];
      OwnEventsPrefix(t, es);
      RunTracked(t, r, earlier);
      ReactAllWellformed(r, earlier);
      EventTracked(t, ReactAll(r, earlier), HeaderSeen(t, earlier), Kept(t, r, earlier), e);
    }
  }

  /**
   From an idle receiver, for any interleaving of the header and genuine frames, duplicated and in
   any order, among any other traffic: the original bytes are delivered exactly once if the header
   and every index arrived undropped, and nothing is delivered otherwise.
   */
  lemma {:induction false} DeliveredIffAllKept(t: Transfer, es: seq<Event>)
    requires t.Valid() && OwnEvents(t, es)
    ensures ReadyFor(ReactAll(IDLE, es).ready, t.Seq())
         == if HeaderSeen(t, es) && Kept(t, IDLE, es) == Indices(|t.slices|)
            then [Delivery(t.header, Flatten(t.slices))] else []
  {
    RunTracked(t, IDLE, es);
  }

  /** The sender's side put in: its slices of any bytes come back as those bytes, unless the orphan list overflowed. */
  lemma {:induction false} TransferIsConfluent(h: Header, bytes: Bytes, chunkBytes: nat, es: seq<Event>)
    requires chunkBytes > 0 && h.sizeBytes == |bytes| && h.totalChunks == ChunkCountFor(|bytes|, chunkBytes)
    requires var t := Transfer(h, SlicesOf(bytes, chunkBytes));
      OwnEvents(t, es) && NoneDropped(t, IDLE, es) && HeaderSeen(t, es) && Arrived(t, es) == Indices(h.totalChunks)
    ensures ReadyFor(ReactAll(IDLE, es).ready, h.transferSeq) == [Delivery(h, bytes)]
  {
    var t := Transfer(h, SlicesOf(bytes, chunkBytes));
    SentTransferValid(h, bytes, chunkBytes);
    NoneDroppedKeepsAll(t, IDLE, es);
    DeliveredIffAllKept(t, es);
  }
}
