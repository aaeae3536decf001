/**
 The in-memory bulk channel and its backpressure (packages/transport/src/memoryLink.ts), with the
 serving loop of packages/sync/src/session.ts as its one producer. Scheduled deliveries run one at a
 time, oldest first, at any moment.
 */
module MemoryLink {
  import opened Basics
  import opened Framing
  import opened Chunks

  /** `received` is what the peer's handler got; `woken` are the drains that were resolved later. */
  datatype Channel = Channel(lowWater: nat, buffered: int, closed: bool, drainWaiters: seq<nat>, woken: seq<nat>,
    totalBytesSent: nat, peak: int, inFlight: seq<Bytes>, sent: seq<Bytes>, received: seq<Bytes>)

  function Opened(lowWater: nat): Channel {
    Channel(lowWater, 0, false, [], [], 0, 0, [], [], [])
  }

  /** Nothing is sent on a closed channel. */
  function Sent(c: Channel, data: Bytes): Channel {
    if c.closed then c
    else
      var buffered := c.buffered + |data|;
      c.(buffered := buffered, totalBytesSent := c.totalBytesSent + |data|, peak := Max(c.peak, buffered),
         inFlight := c.inFlight + [data], sent := c.sent + [data])
  }

  /** The oldest delivery runs, closed or not; only an open peer hears it. */
  function Delivered(c: Channel): Channel
    requires c.inFlight != []
  {
    var data := c.inFlight[0];
    var buffered := c.buffered - |data|;
    var wakes := buffered <= c.lowWater;
    c.(buffered := buffered, inFlight := c.inFlight[1..], received := if c.closed then c.received else c.received + [data],
       drainWaiters := if wakes then [] else c.drainWaiters, woken := if wakes then c.woken + c.drainWaiters else c.woken)
  }

  predicate DrainsAtOnce(c: Channel) {
    c.buffered <= c.lowWater
  }

  function Drained(c: Channel, id: nat): Channel {
    if DrainsAtOnce(c) then c else c.(drainWaiters := c.drainWaiters + [id])
  }

  class MemoryChannel {
    const lowWater: nat
    var buffered: int
    var closed: bool
    var drainWaiters: seq<nat>
    var woken: seq<nat>
    var totalBytesSent: nat
    var peakBufferedAmount: int
    var inFlight: seq<Bytes>
    var sent: seq<Bytes>
    var received: seq<Bytes>

    ghost function State(): Channel
      reads this
    {
      Channel(lowWater, buffered, closed, drainWaiters, woken, totalBytesSent, peakBufferedAmount, inFlight, sent, received)
    }

    constructor (lowWater: nat)
      ensures State() == Opened(lowWater)
    {
      this.lowWater := lowWater;
      buffered, closed, drainWaiters, woken, totalBytesSent, peakBufferedAmount := 0, false, [], [], 0, 0;
      inFlight, sent, received := [], [], [];
    }

    method Send(data: Bytes)
      modifies this
      ensures State() == Sent(old(State()), data)
    {
      if closed {
        return;
      }
      buffered := buffered + |data|;
      totalBytesSent := totalBytesSent + |data|;
      peakBufferedAmount := if peakBufferedAmount >= buffered then peakBufferedAmount else buffered;
      inFlight := inFlight + [data];
      sent := sent + [data];
    }

    /** One scheduled delivery. */
    method Deliver()
      requires inFlight != []
      modifies this
      ensures State() == Delivered(old(State()))
    {
      var data := inFlight[0];
      inFlight := inFlight[1..];
      buffered := buffered - |data|;
      if !closed {
        received := received + [data];
      }
      if buffered <= lowWater {
        var waiters := drainWaiters;
        drainWaiters := [];
        woken := woken + waiters;
      }
    }

    method Drain(id: nat) returns (atOnce: bool)
      modifies this
      ensures State() == Drained(old(State()), id) && atOnce == DrainsAtOnce(old(State()))
    {
      if buffered <= lowWater {
        return true;
      }
      drainWaiters := drainWaiters + [id];
      return false;
    }

    /** Closes both ends. */
    method Close()
      modifies this
      ensures State() == old(State()).(closed := true)
    {
      if closed {
        return;
      }
      closed := true;
    }
  }

  // ---- the serving loop as producer ------------------------------------------------

  /** Where the loop stands: about to look at the buffer, waiting for a drain, or free to send. */
  datatype Pc = Ready | Waiting(id: nat) | Clear

  datatype Flow = Flow(channel: Channel, highWater: nat, todo: seq<Bytes>, pc: Pc, nextId: nat)

  datatype FlowStep = Check | Push | Resume | Deliver | OtherDrain | CloseDown

  function Step(f: Flow, s: FlowStep): Option<Flow> {
    match s
    case Check =>
      if f.pc != Ready || f.todo == [] then None
      else if f.channel.buffered > f.highWater && !DrainsAtOnce(f.channel) then
        Some(f.(channel := Drained(f.channel, f.nextId), pc := Waiting(f.nextId), nextId := f.nextId + 1))
      else Some(f.(pc := Clear))
    case Push =>
      if f.pc != Clear || f.todo == [] then None
      else Some(f.(channel := Sent(f.channel, f.todo[0]), todo := f.todo[1..], pc := Ready))
    case Resume => if f.pc.Waiting? && f.pc.id in f.channel.woken then Some(f.(pc := Clear)) else None
    case Deliver => if f.channel.inFlight == [] then None else Some(f.(channel := Delivered(f.channel)))
    case OtherDrain => Some(f.(channel := Drained(f.channel, f.nextId), nextId := f.nextId + 1))
    case CloseDown => Some(f.(channel := f.channel.(closed := true)))
  }

  function Start(lowWater: nat, highWater: nat, frames: seq<Bytes>): Flow {
    Flow(Opened(lowWater), highWater, frames, Ready, 0)
  }

  /** Every frame carries at most one chunk and its header. */
  ghost predicate FramesFit(frames: seq<Bytes>, chunkBytes: nat) {
    forall i :: 0 <= i < |frames| ==> |frames[i]| <= chunkBytes + CHUNK_HEADER_BYTES
  }

  function Total(ds: seq<Bytes>): nat {
    if ds == [] then 0 else |ds[0]| + Total(ds[1..])
  }

  lemma {:induction false} TotalAppend(ds: seq<Bytes>, d: Bytes)
    ensures Total(ds + [d]) == Total(ds) + |d|
  {
    if ds != [] {
      assert (ds + [d])[1..] == ds[1..] + [d];
      TotalAppend(ds[1..], d);
    } else {
      assert [d][1..] == [] && ds + [d] == [d];
    }
  }

  function Ceiling(f: Flow): int {
    Max(f.highWater, f.channel.lowWater)
  }

  ghost predicate Flowing(f: Flow, chunkBytes: nat) {
    var c := f.channel;
    && c.buffered == Total(c.inFlight)
    && (c.drainWaiters != [] ==> c.buffered > c.lowWater)
    && (f.pc == Clear ==> f.todo != [] && c.buffered <= Ceiling(f))
    && (f.pc.Waiting? ==> f.todo != [] && (if f.pc.id in c.woken then c.buffered <= c.lowWater else f.pc.id in c.drainWaiters))
    && (forall id :: id in c.drainWaiters || id in c.woken ==> id < f.nextId)
    && 0 <= c.buffered <= c.peak <= Ceiling(f) + chunkBytes + CHUNK_HEADER_BYTES
    && FramesFit(f.todo, chunkBytes)
  }

  lemma StepFlows(f: Flow, chunkBytes: nat, s: FlowStep)
    requires Flowing(f, chunkBytes) && Step(f, s).Some?
    ensures Flowing(Step(f, s).value, chunkBytes)
    ensures Step(f, s).value.highWater == f.highWater && Step(f, s).value.channel.lowWater == f.channel.lowWater
  {
    if s == Push {
      TotalAppend(f.channel.inFlight, f.todo[0]);
      var rest := f.todo[1..];
      assert forall i :: 0 <= i < |rest| ==> rest[i] == f.todo[i + 1];
    }
  }

  ghost predicate IsFlow(lowWater: nat, highWater: nat, frames: seq<Bytes>, fs: seq<Flow>, ss: seq<FlowStep>) {
    && |fs| == |ss| + 1 && fs[0] == Start(lowWater, highWater, frames)
    && forall i :: 0 <= i < |ss| ==> Step(fs[i], ss[i]) == Some(fs[i + 1])
  }

  lemma {:induction false} RunFlows(lowWater: nat, highWater: nat, chunkBytes: nat, frames: seq<Bytes>, fs: seq<Flow>,
      ss: seq<FlowStep>, n: nat)
    requires IsFlow(lowWater, highWater, frames, fs, ss) && FramesFit(frames, chunkBytes) && n <= |ss|
    ensures Flowing(fs[n], chunkBytes) && fs[n].highWater == highWater && fs[n].channel.lowWater == lowWater
  {
    hide Step, Flowing;
    if n == 0 {
      StartFlows(lowWater, highWater, chunkBytes, frames);
    } else {
      RunFlows(lowWater, highWater, chunkBytes, frames, fs, ss, n - 1);
      assert Step(fs[n - 1], ss[n - 1]) == Some(fs[n - 1 + 1]);
      StepFlows(fs[n - 1], chunkBytes, ss[n - 1]);
    }
  }

  lemma StartFlows(lowWater: nat, highWater: nat, chunkBytes: nat, frames: seq<Bytes>)
    requires FramesFit(frames, chunkBytes)
    ensures Flowing(Start(lowWater, highWater, frames), chunkBytes)
  {
  }

  /**
   Whatever the interleaving: what counts as buffered is what is in flight, it never exceeds the larger
   water mark by more than one frame, and whoever waits for a drain waits above the low mark, with a
   delivery still to come.
   */
  lemma BufferBounded(lowWater: nat, highWater: nat, chunkBytes: nat, frames: seq<Bytes>, fs: seq<Flow>, ss: seq<FlowStep>, n: nat)
    requires IsFlow(lowWater, highWater, frames, fs, ss) && FramesFit(frames, chunkBytes) && n <= |ss|
    ensures var c := fs[n].channel;
      && c.buffered == Total(c.inFlight)
      && c.buffered <= c.peak <= Max(highWater, lowWater) + chunkBytes + CHUNK_HEADER_BYTES
      && (c.drainWaiters != [] ==> c.buffered > lowWater && c.inFlight != [])
  {
    hide Step, Start;
    RunFlows(lowWater, highWater, chunkBytes, frames, fs, ss, n);
  }

  // ---- everything arrives ----------------------------------------------------------

  /** Nothing overtakes and nothing is lost while the channel is open. */
  ghost predicate InOrder(f: Flow, frames: seq<Bytes>) {
    !f.channel.closed ==> f.channel.sent + f.todo == frames && f.channel.received + f.channel.inFlight == f.channel.sent
  }

  lemma StepInOrder(f: Flow, frames: seq<Bytes>, s: FlowStep)
    requires InOrder(f, frames) && Step(f, s).Some?
    ensures InOrder(Step(f, s).value, frames) && (Step(f, s).value.channel.closed <==> f.channel.closed || s == CloseDown)
  {
    var c := f.channel;
    if s == Push {
      assert c.sent + [f.todo[0]] + f.todo[1..] == c.sent + f.todo;
      assert c.received + (c.inFlight + [f.todo[0]]) == c.received + c.inFlight + [f.todo[0]];
    } else if s == Deliver {
      assert c.received + [c.inFlight[0]] + c.inFlight[1..] == c.received + c.inFlight;
    }
  }

  lemma {:induction false} RunInOrder(lowWater: nat, highWater: nat, frames: seq<Bytes>, fs: seq<Flow>, ss: seq<FlowStep>, n: nat)
    requires IsFlow(lowWater, highWater, frames, fs, ss) && n <= |ss|
    ensures InOrder(fs[n], frames) && (fs[n].channel.closed <==> CloseDown in ss[..n])
  {
    hide Step, InOrder;
    if n == 0 {
      StartInOrder(lowWater, highWater, frames);
    } else {
      RunInOrder(lowWater, highWater, frames, fs, ss, n - 1);
      assert Step(fs[n - 1], ss[n - 1]) == Some(fs[n - 1 + 1]);
      StepInOrder(fs[n - 1], frames, ss[n - 1]);
      assert ss[..n] == ss[..n - 1] + [ss[n - 1]];
    }
  }

  lemma StartInOrder(lowWater: nat, highWater: nat, frames: seq<Bytes>)
    ensures InOrder(Start(lowWater, highWater, frames), frames)
  {
    assert [] + frames == frames;
  }

  function PcRank(pc: Pc): nat {
    match pc case Ready => 2 case Waiting(_) => 1 case Clear => 0
  }

  /** What is still to be done: each frame is checked, perhaps waited for, pushed and delivered. */
  function Remaining(f: Flow): nat {
    5 * |f.todo| + |f.channel.inFlight| + PcRank(f.pc)
  }

  predicate Works(s: FlowStep) {
    s != OtherDrain && s != CloseDown
  }

  /** Each working step leaves less to do, and while anything is left some working step is possible: no wake-up is lost. */
  lemma FlowProgresses(f: Flow, chunkBytes: nat)
    requires Flowing(f, chunkBytes)
    ensures forall s :: Works(s) && Step(f, s).Some? ==> Remaining(Step(f, s).value) < Remaining(f)
    ensures f.todo != [] || f.channel.inFlight != [] ==> exists s :: Works(s) && Step(f, s).Some?
  {
    if f.todo != [] || f.channel.inFlight != [] {
      var s := if f.channel.inFlight != [] then Deliver else if f.pc == Ready then Check else if f.pc == Clear then Push else Resume;
      assert Works(s) && Step(f, s).Some?;
    }
  }

  /** A flow that was not closed and can do no more has delivered every frame, in order. */
  lemma RestingFlowDelivered(lowWater: nat, highWater: nat, chunkBytes: nat, frames: seq<Bytes>, fs: seq<Flow>, ss: seq<FlowStep>)
    requires IsFlow(lowWater, highWater, frames, fs, ss) && FramesFit(frames, chunkBytes)
    requires CloseDown !in ss && forall s :: Works(s) ==> Step(fs[|ss|], s).None?
    ensures fs[|ss|].channel.received == frames && fs[|ss|].channel.drainWaiters == []
  {
    hide Step, Start, Remaining;
    var f := fs[|ss|];
    RunFlows(lowWater, highWater, chunkBytes, frames, fs, ss, |ss|);
    RunInOrder(lowWater, highWater, frames, fs, ss, |ss|);
    FlowProgresses(f, chunkBytes);
    assert ss[..|ss|] == ss;
    assert f.channel.received + [] == f.channel.received && f.channel.sent + [] == f.channel.sent;
  }

  // ---- the counters ----------------------------------------------------------------

  /** The peak is a level the buffer really had, and no level up to now was higher; every sent byte was counted. */
  ghost predicate Counted(fs: seq<Flow>, n: nat)
    requires n < |fs|
  {
    && fs[n].channel.totalBytesSent == Total(fs[n].channel.sent)
    && (exists k :: 0 <= k <= n && fs[k].channel.buffered == fs[n].channel.peak)
    && (forall k :: 0 <= k <= n ==> fs[k].channel.buffered <= fs[n].channel.peak)
  }

  lemma StepCounts(f: Flow, s: FlowStep)
    requires Step(f, s).Some? && f.channel.totalBytesSent == Total(f.channel.sent) && f.channel.buffered <= f.channel.peak
    ensures var c := Step(f, s).value.channel;
      c.totalBytesSent == Total(c.sent) && c.peak == Max(f.channel.peak, c.buffered)
  {
    if s == Push {
      TotalAppend(f.channel.sent, f.todo[0]);
    }
  }

  lemma {:induction false} RunCounts(lowWater: nat, highWater: nat, frames: seq<Bytes>, fs: seq<Flow>, ss: seq<FlowStep>, n: nat)
    requires IsFlow(lowWater, highWater, frames, fs, ss) && n <= |ss|
    ensures Counted(fs, n)
  {
    hide Step, Total;
    if n == 0 {
      NothingTotal();
      assert fs[0].channel.buffered == fs[0].channel.peak;
    } else {
      RunCounts(lowWater, highWater, frames, fs, ss, n - 1);
      assert Step(fs[n - 1], ss[n - 1]) == Some(fs[n - 1 + 1]);
      StepCounts(fs[n - 1], ss[n - 1]);
      var k :| 0 <= k <= n - 1 && fs[k].channel.buffered == fs[n - 1].channel.peak;
      assert fs[k].channel.buffered == fs[n].channel.peak || fs[n].channel.buffered == fs[n].channel.peak;
    }
  }

  lemma {:induction false} NothingTotal()
    ensures Total([]) == 0
  {
  }

  // ---- after a close ---------------------------------------------------------------

  /** A closed channel stays closed; nothing more is sent on it and nothing more is heard from it. */
  lemma {:induction false} NothingAfterClose(lowWater: nat, highWater: nat, frames: seq<Bytes>, fs: seq<Flow>, ss: seq<FlowStep>,
      i: nat, j: nat)
    requires IsFlow(lowWater, highWater, frames, fs, ss) && i <= j <= |ss| && fs[i].channel.closed
    ensures var c, c' := fs[i].channel, fs[j].channel;
      c'.closed && c'.sent == c.sent && c'.received == c.received && c'.totalBytesSent == c.totalBytesSent
  {
    if i < j {
      NothingAfterClose(lowWater, highWater, frames, fs, ss, i, j - 1);
      assert Step(fs[j - 1], ss[j - 1]) == Some(fs[j - 1 + 1]);
    }
  }

  /** The loop waits for a drain exactly when the buffer is above both marks; it has something to send then. */
  lemma GateWaitsIff(f: Flow)
    requires Step(f, Check).Some?
    ensures Step(f, Check).value.pc.Waiting? <==> f.channel.buffered > f.highWater && f.channel.buffered > f.channel.lowWater
    ensures f.todo != [] && Step(f, Check).value.todo == f.todo
  {
  }

  /** Closed or not, a flow that can do no more has nothing in flight, nothing buffered and nobody waiting. */
  lemma RestingFlowIsQuiet(lowWater: nat, highWater: nat, chunkBytes: nat, frames: seq<Bytes>, fs: seq<Flow>, ss: seq<FlowStep>)
    requires IsFlow(lowWater, highWater, frames, fs, ss) && FramesFit(frames, chunkBytes)
    requires forall s :: Works(s) ==> Step(fs[|ss|], s).None?
    ensures var f := fs[|ss|];
      f.channel.buffered == 0 && f.channel.inFlight == [] && f.channel.drainWaiters == [] && f.todo == [] && f.pc != Clear
  {
    hide Step, Start, Remaining;
    RunFlows(lowWater, highWater, chunkBytes, frames, fs, ss, |ss|);
    FlowProgresses(fs[|ss|], chunkBytes);
  }

  // ---- the session's own frames ----------------------------------------------------

  /** Transfer numbers and chunk indices fit in their header fields. */
  ghost predicate Numbered(files: seq<Bytes>, chunkBytes: nat)
    requires chunkBytes > 0
  {
    |files| <= MAX_UINT32 && forall k :: 0 <= k < |files| ==> ChunkCountFor(|files[k]|, chunkBytes) <= MAX_UINT32 + 1
  }

  /** The wire frames of the first `n` slices of a file. */
  function FramesOf(bytes: Bytes, chunkBytes: nat, transferSeq: nat, n: nat): (frames: seq<Bytes>)
    requires chunkBytes > 0 && transferSeq <= MAX_UINT32 && n <= ChunkCountFor(|bytes|, chunkBytes) <= MAX_UINT32 + 1
    ensures FramesFit(frames, chunkBytes)
  {
    if n == 0 then [] else
      SliceFits(bytes, chunkBytes, n - 1, transferSeq);
      FramesOf(bytes, chunkBytes, transferSeq, n - 1) + [WireFrame(ChunkFrame(transferSeq, n - 1, Slice(bytes, chunkBytes, n - 1)))]
  }

  lemma SliceFits(bytes: Bytes, chunkBytes: nat, i: nat, transferSeq: nat)
    requires chunkBytes > 0 && i < ChunkCountFor(|bytes|, chunkBytes) && transferSeq <= MAX_UINT32 && i <= MAX_UINT32
    ensures |WireFrame(ChunkFrame(transferSeq, i, Slice(bytes, chunkBytes, i)))| <= chunkBytes + CHUNK_HEADER_BYTES
  {
    ChunkStarts(|bytes|, chunkBytes, i);
  }

  /** Everything a session pushes when it serves the first `n` files, one after the other, numbered from one. */
  function ServedFrames(files: seq<Bytes>, chunkBytes: nat, n: nat): (frames: seq<Bytes>)
    requires chunkBytes > 0 && Numbered(files, chunkBytes) && n <= |files|
    ensures FramesFit(frames, chunkBytes)
  {
    if n == 0 then []
    else ServedFrames(files, chunkBytes, n - 1) + FramesOf(files[n - 1], chunkBytes, n, ChunkCountFor(|files[n - 1]|, chunkBytes))
  }

  /** What one frame carries under a transfer number. */
  function PayloadUnder(frame: Bytes, transferSeq: nat): Bytes {
    var f := DecodeChunkFrame(frame);
    if f.Some? && f.value.transferSeq == transferSeq then f.value.payload else []
  }

  /** The bytes heard under one transfer number, in the order heard. */
  function HeardUnder(wire: seq<Bytes>, transferSeq: nat): Bytes {
    if |wire| == 0 then [] else HeardUnder(wire[..|wire| - 1], transferSeq) + PayloadUnder(wire[|wire| - 1], transferSeq)
  }

  lemma Regroup(x: Bytes, y: Bytes, z: Bytes)
    ensures (x + y) + z == x + (y + z)
  {
  }

  lemma {:induction false} HeardOneMore(wire: seq<Bytes>, frame: Bytes, transferSeq: nat)
    ensures HeardUnder(wire + [frame], transferSeq) == HeardUnder(wire, transferSeq) + PayloadUnder(frame, transferSeq)
  {
    hide PayloadUnder;
    assert (wire + [frame])[..|wire|] == wire;
  }

  lemma {:induction false} HeardConcat(xs: seq<Bytes>, ys: seq<Bytes>, transferSeq: nat)
    ensures HeardUnder(xs + ys, transferSeq) == HeardUnder(xs, transferSeq) + HeardUnder(ys, transferSeq)
  {
    hide PayloadUnder;
    if |ys| == 0 {
      assert xs + ys == xs;
    } else {
      var front, last := ys[..|ys| - 1], ys[|ys| - 1];
      assert (xs + ys)[..|xs + ys| - 1] == xs + front;
      HeardConcat(xs, front, transferSeq);
      Regroup(HeardUnder(xs, transferSeq), HeardUnder(front, transferSeq), PayloadUnder(last, transferSeq));
    }
  }

  /** The frames of one transfer carry its slices under its own number, and nothing under another. */
  lemma {:induction false} OneTransferHeard(bytes: Bytes, chunkBytes: nat, own: nat, n: nat, transferSeq: nat)
    requires chunkBytes > 0 && own <= MAX_UINT32 && n <= ChunkCountFor(|bytes|, chunkBytes) <= MAX_UINT32 + 1
    ensures HeardUnder(FramesOf(bytes, chunkBytes, own, n), transferSeq)
         == if own == transferSeq then Flatten(SlicesOf(bytes, chunkBytes)[..n]) else []
  {
    hide Slice, WireFrame, DecodeChunkFrame, ChunkCountFor, HeardUnder, Flatten, SlicesOf;
    if n > 0 {
      OneTransferHeard(bytes, chunkBytes, own, n - 1, transferSeq);
      var f := ChunkFrame(own, n - 1, Slice(bytes, chunkBytes, n - 1));
      FrameRoundTrip(f);
      HeardOneMore(FramesOf(bytes, chunkBytes, own, n - 1), WireFrame(f), transferSeq);
      var slices := SlicesOf(bytes, chunkBytes);
      SliceAt(bytes, chunkBytes, n - 1);
      FlattenStep(slices, n - 1);
    } else {
      NothingHeard(transferSeq);
      assert SlicesOf(bytes, chunkBytes)[..0] == [];
      NothingFlat();
    }
  }

  lemma SliceAt(bytes: Bytes, chunkBytes: nat, i: nat)
    requires chunkBytes > 0 && i < ChunkCountFor(|bytes|, chunkBytes)
    ensures SlicesOf(bytes, chunkBytes)[i] == Slice(bytes, chunkBytes, i)
  {
    hide Slice, ChunkCountFor;
  }

  lemma {:induction false} NothingFlat()
    ensures Flatten([]) == []
  {
  }

  /** Whoever hears all the frames hears each file, whole, under its number. */
  lemma {:induction false} ServedIsHeard(files: seq<Bytes>, chunkBytes: nat, n: nat, k: nat)
    requires chunkBytes > 0 && Numbered(files, chunkBytes) && n <= |files| && k < |files|
    ensures HeardUnder(ServedFrames(files, chunkBytes, n), k + 1) == if k < n then files[k] else []
  {
    hide HeardUnder, SlicesOf, ChunkCountFor, FramesOf;
    if n > 0 {
      var last := files[n - 1];
      var count := ChunkCountFor(|last|, chunkBytes);
      ServedIsHeard(files, chunkBytes, n - 1, k);
      HeardConcat(ServedFrames(files, chunkBytes, n - 1), FramesOf(last, chunkBytes, n, count), k + 1);
      OneTransferHeard(last, chunkBytes, n, count, k + 1);
      var slices := SlicesOf(last, chunkBytes);
      assert slices[..count] == slices;
      SlicesTile(last, chunkBytes);
    } else {
      NothingHeard(k + 1);
    }
  }

  lemma {:induction false} NothingHeard(transferSeq: nat)
    ensures HeardUnder([], transferSeq) == []
  {
  }

  /**
   Serving any files over the channel, under every interleaving: the buffer stays within one frame of the
   larger mark; and if the channel is not closed and nothing more can happen, the peer has heard every
   file whole under its own number.
   */
  lemma {:induction false} ServingIsBoundedAndArrives(lowWater: nat, highWater: nat, chunkBytes: nat, files: seq<Bytes>, fs: seq<Flow>, ss: seq<FlowStep>)
    requires chunkBytes > 0 && Numbered(files, chunkBytes)
    requires IsFlow(lowWater, highWater, ServedFrames(files, chunkBytes, |files|), fs, ss)
    ensures forall n :: 0 <= n <= |ss| ==> fs[n].channel.buffered <= Max(highWater, lowWater) + chunkBytes + CHUNK_HEADER_BYTES
    ensures CloseDown !in ss && (forall s :: Works(s) ==> Step(fs[|ss|], s).None?) ==>
      forall k :: 0 <= k < |files| ==> HeardUnder(fs[|ss|].channel.received, k + 1) == files[k]
  {
    hide IsFlow, Step, HeardUnder, ServedFrames;
    var frames := ServedFrames(files, chunkBytes, |files|);
    IsFlowLengths(lowWater, highWater, frames, fs, ss);
    forall n | 0 <= n <= |ss|
      ensures fs[n].channel.buffered <= Max(highWater, lowWater) + chunkBytes + CHUNK_HEADER_BYTES
    {
      BufferBounded(lowWater, highWater, chunkBytes, frames, fs, ss, n);
    }
    if CloseDown !in ss && forall s :: Works(s) ==> Step(fs[|ss|], s).None? {
      RestingFlowDelivered(lowWater, highWater, chunkBytes, frames, fs, ss);
      forall k | 0 <= k < |files|
        ensures HeardUnder(fs[|ss|].channel.received, k + 1) == files[k]
      {
        ServedIsHeard(files, chunkBytes, |files|, k);
      }
    }
  }

  lemma IsFlowLengths(lowWater: nat, highWater: nat, frames: seq<Bytes>, fs: seq<Flow>, ss: seq<FlowStep>)
    requires IsFlow(lowWater, highWater, frames, fs, ss)
    ensures |fs| == |ss| + 1
  {
  }
}
