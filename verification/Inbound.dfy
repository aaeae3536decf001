/**
 The receiving half of a session's bulk transfers (packages/sync/src/session.ts): frames and headers
 travel on separate channels, so a frame may overtake its header.
 */
module Inbound {
  import opened Basics
  import opened Framing
  import opened Chunks
  import opened Store
  import opened Messages

  const MAX_ORPHAN_FRAMES: nat := 64

  datatype Incoming = Incoming(header: Header, assembly: Assembly)

  datatype Delivery = Delivery(header: Header, bytes: Bytes)

  /** `ready` holds whole revisions queued for ingestion, `refused` those whose frames did not fit. */
  datatype Receiver = Receiver(assemblers: map<nat, Incoming>, orphans: seq<ChunkFrame>, ready: seq<Delivery>,
    refused: seq<RevisionId>)

  const IDLE := Receiver(map[], [], [], [])

  ghost predicate Wellformed(r: Receiver) {
    && |r.orphans| <= MAX_ORPHAN_FRAMES
    && forall s :: s in r.assemblers ==>
         var e := r.assemblers[s];
         && e.header.transferSeq == s && e.assembly.Valid()
         && e.assembly.totalChunks == e.header.totalChunks && e.assembly.expectedSizeBytes == e.header.sizeBytes
  }

  /** A frame without a header waits, or is dropped once sixty-four already wait. */
  function OnFrame(r: Receiver, f: ChunkFrame): Receiver {
    if f.transferSeq !in r.assemblers then
      if |r.orphans| < MAX_ORPHAN_FRAMES then r.(orphans := r.orphans + [f]) else r
    else
      var e := r.assemblers[f.transferSeq];
      if e.assembly.Refuses(f) then
        r.(assemblers := r.assemblers - {f.transferSeq}, refused := r.refused + [e.header.revisionId])
      else
        var a := e.assembly.Accept(f);
        if a.IsComplete() then
          r.(assemblers := r.assemblers - {f.transferSeq},
             ready := r.ready + [Delivery(e.header, Joined(a.chunks, a.totalChunks))])
        else r.(assemblers := r.assemblers[f.transferSeq := Incoming(e.header, a)])
  }

  function Without(s: seq<ChunkFrame>, i: nat): seq<ChunkFrame>
    requires i < |s|
  {
    s[..i] + s[i + 1..]
  }

  /** Takes an orphan off the list and treats it as if it arrived now. */
  function HandOver(r: Receiver, i: nat): (r': Receiver)
    requires i < |r.orphans|
    ensures i <= |r'.orphans|
  {
    OnFrame(r.(orphans := Without(r.orphans, i)), r.orphans[i])
  }

  /** Hands the waiting frames of one transfer over, newest first; only the first `n` are still to be looked at. */
  function ReplayOrphans(r: Receiver, transferSeq: nat, n: nat): Receiver
    requires n <= |r.orphans|
    decreases n
  {
    if n == 0 then r
    else if r.orphans[n - 1].transferSeq == transferSeq then
      ReplayOrphans(HandOver(r, n - 1), transferSeq, n - 1)
    else ReplayOrphans(r, transferSeq, n - 1)
  }

  function Opened(r: Receiver, h: Header): Receiver {
    r.(assemblers := r.assemblers[h.transferSeq := Incoming(h, Assembly(h.totalChunks, h.sizeBytes, map[], 0))])
  }

  /** A header that declares no chunks throws before anything is registered. */
  function OnHeader(r: Receiver, h: Header): Receiver {
    if h.totalChunks == 0 then r else ReplayOrphans(Opened(r, h), h.transferSeq, |r.orphans|)
  }

  // ---- the handlers in place ----------------------------------------------

  class InboundTransfers {
    var assemblers: map<nat, Incoming>
    var orphanFrames: seq<ChunkFrame>
    var ready: seq<Delivery>
    var refused: seq<RevisionId>

    ghost function State(): Receiver
      reads this
    {
      Receiver(assemblers, orphanFrames, ready, refused)
    }

    constructor ()
      ensures State() == IDLE
    {
      assemblers, orphanFrames, ready, refused := map[], [], [], [];
    }

    method HandleFrame(f: ChunkFrame)
      requires Wellformed(State())
      modifies this
      ensures State() == OnFrame(old(State()), f) && Wellformed(State())
    {
      FrameKeepsWellformed(State(), f);
      if f.transferSeq !in assemblers {
        if |orphanFrames| < MAX_ORPHAN_FRAMES {
          orphanFrames := orphanFrames + [f];
        }
        return;
      }
      var entry := assemblers[f.transferSeq];
      if entry.assembly.Refuses(f) {
        assemblers := assemblers - {f.transferSeq};
        refused := refused + [entry.header.revisionId];
        return;
      }
      var a := entry.assembly.Accept(f);
      if a.IsComplete() {
        assemblers := assemblers - {f.transferSeq};
        ready := ready + [Delivery(entry.header, Joined(a.chunks, a.totalChunks))];
      } else {
        assemblers := assemblers[f.transferSeq := Incoming(entry.header, a)];
      }
    }

    method HandleHeader(h: Header)
      requires Wellformed(State())
      modifies this
      ensures State() == OnHeader(old(State()), h) && Wellformed(State())
    {
      if h.totalChunks == 0 {
        return;
      }
      assemblers := assemblers[h.transferSeq := Incoming(h, Assembly(h.totalChunks, h.sizeBytes, map[], 0))];
      EmptyWeight(h.totalChunks);
      ghost var result := ReplayOrphans(State(), h.transferSeq, |orphanFrames|);
      var n: nat := |orphanFrames|;
      while n > 0
        invariant n <= |orphanFrames| && Wellformed(State())
        invariant result == ReplayOrphans(State(), h.transferSeq, n)
      {
        n := n - 1;
        var frame := orphanFrames[n];
        if frame.transferSeq == h.transferSeq {
          orphanFrames := orphanFrames[..n] + orphanFrames[n + 1..];
          HandleFrame(frame);
        }
      }
    }
  }

  lemma FrameKeepsWellformed(r: Receiver, f: ChunkFrame)
    requires Wellformed(r)
    ensures Wellformed(OnFrame(r, f))
  {
    if f.transferSeq in r.assemblers {
      r.assemblers[f.transferSeq].assembly.AcceptKeepsValid(f);
    }
  }

  lemma {:induction false} ReplayKeepsWellformed(r: Receiver, s: nat, n: nat)
    requires Wellformed(r) && n <= |r.orphans|
    ensures Wellformed(ReplayOrphans(r, s, n))
    decreases n
  {
    if n > 0 {
      if r.orphans[n - 1].transferSeq == s {
        FrameKeepsWellformed(r.(orphans := Without(r.orphans, n - 1)), r.orphans[n - 1]);
        ReplayKeepsWellformed(HandOver(r, n - 1), s, n - 1);
      } else {
        ReplayKeepsWellformed(r, s, n - 1);
      }
    }
  }

  lemma HeaderKeepsWellformed(r: Receiver, h: Header)
    requires Wellformed(r)
    ensures Wellformed(OnHeader(r, h))
  {
    if h.totalChunks > 0 {
      EmptyWeight(h.totalChunks);
      ReplayKeepsWellformed(Opened(r, h), h.transferSeq, |r.orphans|);
    }
  }
}
