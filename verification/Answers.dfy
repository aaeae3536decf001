/**
 What one side of a session answers and announces, whatever its peer sends: every transfer that ends is
 answered exactly once and truthfully, every header describes a stored revision, and what is said of the
 vault is so.
 */
module Answers {
  import opened Basics
  import opened Reachability
  import opened RemoteHistory
  import opened Framing
  import opened Chunks
  import opened Store
  import opened Engine
  import opened EngineRuns
  import opened Operations
  import opened Messages
  import opened Inbound
  import opened Session
  import opened SingleSession
  import opened Conversation

  // ---- answers, read off what was said ---------------------------------------------

  /** The accepted ones, in order. */
  function Taken(acks: seq<(RevisionId, bool)>): seq<RevisionId> {
    if |acks| == 0 then []
    else Taken(acks[..|acks| - 1]) + if acks[|acks| - 1].1 then [acks[|acks| - 1].0] else []
  }

  function Refusing(ids: seq<RevisionId>): seq<(RevisionId, bool)> {
    seq(|ids|, i requires 0 <= i < |ids| => (ids[i], false))
  }

  lemma {:induction false} TakenConcat(xs: seq<(RevisionId, bool)>, ys: seq<(RevisionId, bool)>)
    ensures Taken(xs + ys) == Taken(xs) + Taken(ys)
  {
    if |ys| == 0 {
      assert xs + ys == xs;
    } else {
      assert (xs + ys)[..|xs + ys| - 1] == xs + ys[..|ys| - 1];
      TakenConcat(xs, ys[..|ys| - 1]);
    }
  }

  lemma {:induction false} RefusingTakesNone(ids: seq<RevisionId>)
    ensures Taken(Refusing(ids)) == []
  {
    if |ids| > 0 {
      RefusingTakesNone(ids[..|ids| - 1]);
      assert Refusing(ids)[..|ids| - 1] == Refusing(ids[..|ids| - 1]);
    }
  }

  /** Refusing revisions says so, once each, and says nothing else. */
  lemma {:induction false} RejectAllSays(s: Side, ids: seq<RevisionId>)
    ensures var s' := RejectAll(s, ids);
      && Acks(s'.out) == Acks(s.out) + Refusing(ids) && Headers(s'.out) == Headers(s.out) && s'.received == s.received
      && SaysOnlyTransfers(s.out, s'.out)
  {
    hide Acks, Headers, HasComplete, Notify;
    if |ids| > 0 {
      RejectAllSays(s, ids[..|ids| - 1]);
      RejectSays(RejectAll(s, ids[..|ids| - 1]), ids[|ids| - 1]);
      assert Refusing(ids) == Refusing(ids[..|ids| - 1]) + [(ids[|ids| - 1], false)];
    } else {
      assert Acks(s.out) + [] == Acks(s.out);
    }
  }

  lemma RejectSays(s: Side, id: RevisionId)
    ensures var s' := Reject(s, id);
      && Acks(s'.out) == Acks(s.out) + [(id, false)] && Headers(s'.out) == Headers(s.out) && s'.received == s.received
      && s'.out == s.out + [RevisionAck(id, false, None)]
  {
    hide Acks, Headers, HasComplete;
    AppendReads(s.out, RevisionAck(id, false, None));
    assert Headers(s.out) + [] == Headers(s.out);
  }

  /** What was added concerns transfers alone. */
  ghost predicate SaysOnlyTransfers(out: seq<Message>, out': seq<Message>) {
    out <= out' && forall i :: |out| <= i < |out'| ==> out'[i].RevisionAck? || out'[i].RevisionHeader?
  }

  // ---- the receiver ----------------------------------------------------------------

  /** Nothing refused waits for its answer, and every open transfer is as its header says. */
  ghost predicate ReceiverFit(r: Receiver) {
    r.refused == [] && Wellformed(r)
  }

  /** A frame of an open transfer that does not fit: no such chunk, or more bytes than were announced. */
  ghost predicate FrameMisfits(r: Receiver, f: ChunkFrame) {
    f.transferSeq in r.assemblers
    && var e := r.assemblers[f.transferSeq];
       f.chunkIndex >= e.header.totalChunks
       || (f.chunkIndex !in e.assembly.chunks && Weight(e.assembly.chunks, e.header.totalChunks) + |f.payload| > e.header.sizeBytes)
  }

  /** A misfit ends its transfer, which is refused; any other frame refuses nothing. */
  lemma MisfitsAreRefused(r: Receiver, f: ChunkFrame)
    requires ReceiverFit(r)
    ensures var r' := OnFrame(r, f);
      && (FrameMisfits(r, f) ==>
            r' == r.(assemblers := r.assemblers - {f.transferSeq}, refused := [r.assemblers[f.transferSeq].header.revisionId]))
      && (!FrameMisfits(r, f) ==> r'.refused == [])
  {
  }

  /** How the frames that waited for a header leave it: still open, finished, or refused. */
  ghost predicate AfterWaiting(r: Receiver, h: Header, r': Receiver) {
    || (h.transferSeq in r'.assemblers && r'.assemblers[h.transferSeq].header == h && r'.refused == [] && r'.ready == r.ready)
    || (h.transferSeq !in r'.assemblers && r'.refused == [] && |r'.ready| == |r.ready| + 1 && r.ready <= r'.ready
        && r'.ready[|r.ready|].header == h)
    || (h.transferSeq !in r'.assemblers && r'.refused == [h.revisionId] && r'.ready == r.ready)
  }

  lemma FrameAfterWaiting(r: Receiver, h: Header, r1: Receiver, f: ChunkFrame)
    requires AfterWaiting(r, h, r1) && f.transferSeq == h.transferSeq
    ensures AfterWaiting(r, h, OnFrame(r1, f))
  {
  }

  lemma {:induction false} ReplayAfterWaiting(r: Receiver, h: Header, r1: Receiver, n: nat)
    requires AfterWaiting(r, h, r1) && n <= |r1.orphans|
    ensures AfterWaiting(r, h, ReplayOrphans(r1, h.transferSeq, n))
    decreases n
  {
    hide OnFrame;
    if n > 0 {
      if r1.orphans[n - 1].transferSeq == h.transferSeq {
        var r2 := r1.(orphans := Inbound.Without(r1.orphans, n - 1));
        assert AfterWaiting(r, h, r2);
        FrameAfterWaiting(r, h, r2, r1.orphans[n - 1]);
        ReplayAfterWaiting(r, h, HandOver(r1, n - 1), n - 1);
      } else {
        ReplayAfterWaiting(r, h, r1, n - 1);
      }
    }
  }

  /** A header opens its transfer afresh, whatever went on under its number; the waiting frames may end it, one way or the other. */
  lemma HeaderOutcome(r: Receiver, h: Header)
    requires r.refused == []
    ensures h.totalChunks == 0 ==> OnHeader(r, h) == r
    ensures h.totalChunks > 0 ==> AfterWaiting(r, h, OnHeader(r, h))
    ensures h.totalChunks > 0 && (forall i :: 0 <= i < |r.orphans| ==> r.orphans[i].transferSeq != h.transferSeq) ==>
      OnHeader(r, h) == r.(assemblers := r.assemblers[h.transferSeq := Incoming(h, Assembly(h.totalChunks, h.sizeBytes, map[], 0))])
  {
    hide ReplayOrphans;
    if h.totalChunks > 0 {
      ReplayAfterWaiting(r, h, Opened(r, h), |r.orphans|);
      if forall i :: 0 <= i < |r.orphans| ==> r.orphans[i].transferSeq != h.transferSeq {
        NobodyWaits(Opened(r, h), h.transferSeq, |r.orphans|);
      }
    }
  }

  lemma {:induction false} NobodyWaits(r: Receiver, q: nat, n: nat)
    requires n <= |r.orphans| && forall i :: 0 <= i < n ==> r.orphans[i].transferSeq != q
    ensures ReplayOrphans(r, q, n) == r
    decreases n
  {
    if n > 0 {
      NobodyWaits(r, q, n - 1);
    }
  }

  /** Two frames of the same chunk that waited: the one that came last is the one that counts. */
  lemma {:induction false} LastOrphanCounts(h: Header, f: ChunkFrame, g: ChunkFrame)
    requires h.totalChunks == 1 && f.transferSeq == g.transferSeq == h.transferSeq && f.chunkIndex == g.chunkIndex == 0
    requires h.sizeBytes == |g.payload|
    ensures OnHeader(Receiver(map[], [f, g], [], []), h).ready == [Delivery(h, g.payload)]
  {
    var r := Opened(Receiver(map[], [f, g], [], []), h);
    var a := Assembly(1, |g.payload|, map[], 0);
    assert r.assemblers == map[h.transferSeq := Incoming(h, a)];
    assert Inbound.Without(r.orphans, 1) == [f];
    var b := a.Accept(g);
    assert b.chunks == map[0 := g.payload] && |b.chunks| == 1 && b.IsComplete();
    assert Joined(b.chunks, 0) == [] && Joined(b.chunks, 1) == g.payload;
    var r1 := HandOver(r, 1);
    assert r1.ready == [Delivery(h, g.payload)] && h.transferSeq !in r1.assemblers && r1.orphans == [f];
    assert HandOver(r1, 0).ready == r1.ready;
    assert ReplayOrphans(HandOver(r1, 0), h.transferSeq, 0) == HandOver(r1, 0);
    assert ReplayOrphans(r1, h.transferSeq, 1) == HandOver(r1, 0);
    assert ReplayOrphans(r, h.transferSeq, 2) == ReplayOrphans(r1, h.transferSeq, 1);
  }

  // ---- every answer ------------------------------------------------------------------

  /** The store has the revision, or can take it: right bytes, parents there, vault known. */
  ghost predicate WouldTake(sha: Digest, t: Tables, x: Delivery) {
    x.header.revisionId in t.rows
    || (sha(x.bytes) == x.header.hash && (forall p :: p in x.header.parentIds ==> p in t.rows) && x.header.vaultId in t.vaults)
  }

  /** The answers that an event calls for. */
  ghost function AnswersTo(sha: Digest, s: Side, e: Event): seq<(RevisionId, bool)> {
    match e
    case Ingests =>
      if s.receiver.ready == [] then []
      else [(s.receiver.ready[0].header.revisionId, WouldTake(sha, s.disk.tables, s.receiver.ready[0]))]
    case BulkIn(f) => if FrameMisfits(s.receiver, f) then [(s.receiver.assemblers[f.transferSeq].header.revisionId, false)] else []
    case ControlIn(m) => if m.RevisionHeader? && s.remote.Some? then Refusing(OnHeader(s.receiver, m.header).refused) else []
    case _ => []
  }

  lemma ControlAnswers(sha: Digest, s: Side, m: Message)
    requires ReceiverFit(s.receiver)
    ensures var s' := OnControl(s, m);
      && Acks(s'.out) == Acks(s.out) + AnswersTo(sha, s, ControlIn(m)) && Headers(s'.out) == Headers(s.out)
      && s'.received == s.received && ReceiverFit(s'.receiver) && SaysOnlyTransfers(s.out, s'.out)
  {
    hide OnHeader, RejectAll, Acks, Headers, Wellformed;
    assert Acks(s.out) + [] == Acks(s.out);
    if m.RevisionHeader? && s.remote.Some? {
      var r := OnHeader(s.receiver, m.header);
      HeaderKeepsWellformed(s.receiver, m.header);
      AfterAbsorbing(s, r);
    } else if m.TransferCancel? {
      FewerTransfers(s.receiver, m.cancelSeq);
    }
  }

  lemma FewerTransfers(r: Receiver, q: nat)
    requires Wellformed(r)
    ensures Wellformed(r.(assemblers := r.assemblers - {q}))
  {
  }

  lemma AfterAbsorbing(s: Side, r: Receiver)
    requires Wellformed(r)
    ensures var s' := Absorb(s, r);
      && Acks(s'.out) == Acks(s.out) + Refusing(r.refused) && Headers(s'.out) == Headers(s.out) && s'.received == s.received
      && s'.receiver == r.(refused := []) && ReceiverFit(s'.receiver) && SaysOnlyTransfers(s.out, s'.out)
  {
    hide RejectAll, Acks, Headers;
    RejectAllSays(s.(receiver := r.(refused := [])), r.refused);
    RejectAllFrame(s.(receiver := r.(refused := [])), r.refused);
  }

  lemma BulkAnswers(sha: Digest, s: Side, f: ChunkFrame)
    requires ReceiverFit(s.receiver)
    ensures var s' := OnBulk(s, f);
      && Acks(s'.out) == Acks(s.out) + AnswersTo(sha, s, BulkIn(f)) && Headers(s'.out) == Headers(s.out)
      && s'.received == s.received && ReceiverFit(s'.receiver) && SaysOnlyTransfers(s.out, s'.out)
  {
    hide OnFrame, RejectAll, Acks, Headers, Wellformed, FrameMisfits, Absorb;
    MisfitsAreRefused(s.receiver, f);
    FrameKeepsWellformed(s.receiver, f);
    AfterAbsorbing(s, OnFrame(s.receiver, f));
    OneRefused(s, f);
    assert Acks(s.out) + [] == Acks(s.out);
  }

  lemma OneRefused(s: Side, f: ChunkFrame)
    ensures FrameMisfits(s.receiver, f) ==>
      Refusing([s.receiver.assemblers[f.transferSeq].header.revisionId]) == [(s.receiver.assemblers[f.transferSeq].header.revisionId, false)]
    ensures Refusing([]) == []
  {
  }

  lemma IngestSays(sha: Digest, s: Side)
    requires IngestStep(sha, s).Some? && Sound(sha, s.disk) && ReceiverFit(s.receiver)
    ensures var s', id := IngestStep(sha, s).value, s.receiver.ready[0].header.revisionId;
      var took := WouldTake(sha, s.disk.tables, s.receiver.ready[0]);
      && Acks(s'.out) == Acks(s.out) + [(id, took)] && s'.received == (if took then s.received + [id] else s.received)
      && Headers(s'.out) == Headers(s.out) && ReceiverFit(s'.receiver) && SaysOnlyTransfers(s.out, s'.out)
      && s'.expected == s.expected - {id}
      && s.receiver.ready != [] && (took <==> id in s'.disk.tables.rows)
  {
    hide Replay, IngestReceivedRevision, Sound, Acks, Headers, HasComplete, IngestStep, Wellformed, WouldTake;
    IngestShape(sha, s);
    IngestSpoken(sha, s);
    var x := s.receiver.ready[0];
    var i := InputOf(s, x);
    TookIsStored(sha, s.disk, i, x);
    LaterReady(s.receiver);
    var took := WouldTake(sha, s.disk.tables, x);
    AppendReads(s.out, RevisionAck(x.header.revisionId, took, None));
    assert Headers(s.out) + [] == Headers(s.out);
  }

  lemma LaterReady(r: Receiver)
    requires Wellformed(r) && r.ready != []
    ensures Wellformed(r.(ready := r.ready[1..]))
  {
  }

  lemma IngestSpoken(sha: Digest, s: Side)
    requires IngestStep(sha, s).Some?
    ensures s.receiver.ready != [] && s.remote.Some?
    ensures var s', id := IngestStep(sha, s).value, s.receiver.ready[0].header.revisionId;
      var o := IngestReceivedRevision(sha, s.disk.tables, InputOf(s, s.receiver.ready[0])).outcome;
      var took := o.Stored? || o.AlreadyPresent?;
      && s'.out == s.out + [RevisionAck(id, took, None)] && s'.received == (if took then s.received + [id] else s.received)
      && s'.expected == s.expected - {id}
  {
    hide Replay, IngestReceivedRevision, InputOf;
  }

  /** The engine stores or has exactly what it would take; what it refuses is not stored afterwards either. */
  lemma {:induction false} TookIsStored(sha: Digest, d: Disk, i: ReceivedInput, x: Delivery)
    requires Sound(sha, d) && i.revisionId == x.header.revisionId && i.vaultId == x.header.vaultId && i.bytes == x.bytes
    requires i.declaredHash == x.header.hash && i.declaredParentIds == x.header.parentIds
    ensures var e := IngestReceivedRevision(sha, d.tables, i);
      && (WouldTake(sha, d.tables, x) <==> e.outcome.Stored? || e.outcome.AlreadyPresent?)
      && (WouldTake(sha, d.tables, x) <==> i.revisionId in Replay(sha, d, e.steps).tables.rows)
  {
    hide Replay, IngestReceivedRevision, Sound, HistoryKept;
    IngestMeans(sha, d, i);
  }

  lemma RunSays(sha: Digest, s: Side, c: Choice)
    requires RunStep(sha, s, c).Some? && s.hello.Hello?
    ensures var s' := RunStep(sha, s, c).value;
      Acks(s'.out) == Acks(s.out) && Headers(s'.out) == Headers(s.out) && s'.received == s.received && s'.receiver == s.receiver
  {
    hide RunStep, Acks, Headers, HasComplete;
    RunStepFrame(sha, s, c);
    var s' := RunStep(sha, s, c).value;
    if s'.out != s.out {
      AppendReads(s.out, s'.out[|s'.out| - 1]);
      assert Acks(s.out) + [] == Acks(s.out) && Headers(s.out) + [] == Headers(s.out);
    }
  }

  /** The header a stored revision is announced with. */
  function TrueHeader(t: Tables, chunkBytes: nat, seqNo: nat, id: RevisionId): Header
    requires chunkBytes > 0 && id in t.rows
  {
    Header(seqNo, t.rows[id].vaultId, id, t.rows[id].hash, t.rows[id].sizeBytes, ParentsOf(t, id),
      ChunkCountFor(t.rows[id].sizeBytes, chunkBytes), t.rows[id].message)
  }

  /**
   One turn of serving: a revision that is not stored is skipped without a word; the next one that is gets
   the next number and a true header, and then its frames; what counts as sent is what was accepted.
   */
  lemma ServeMeans(sha: Digest, chunkBytes: nat, s: Side)
    requires chunkBytes > 0 && ServeStep(chunkBytes, s).Some? && Sound(sha, s.disk)
    ensures var s' := ServeStep(chunkBytes, s).value;
      && s'.receiver == s.receiver && s'.received == s.received && s'.disk == s.disk && s.phase == Transferring
      && (s.outgoing.None? ==>
            && s.toServe != [] && s'.toServe == s.toServe[1..] && s'.bulkOut == s.bulkOut && s'.sent == s.sent && s'.phase == s.phase
            && var id := s.toServe[0];
               if id in s.disk.tables.rows then
                 && s'.out == s.out + [RevisionHeader(TrueHeader(s.disk.tables, chunkBytes, s.transferSeq + 1, id))]
                 && s'.transferSeq == s.transferSeq + 1
                 && s'.outgoing == Some(Outgoing(id, s.transferSeq + 1, SlicesOf(BytesOf(s.disk, id), chunkBytes), 0, None))
               else s'.out == s.out && s'.transferSeq == s.transferSeq && s'.outgoing.None?)
      && (s.outgoing.Some? ==>
            && s'.out == s.out && s'.transferSeq == s.transferSeq && s'.toServe == s.toServe
            && var o := s.outgoing.value;
               if o.nextChunk < |o.slices| then
                 && s'.bulkOut == s.bulkOut + [ChunkFrame(o.transferSeq, o.nextChunk, o.slices[o.nextChunk])]
                 && s'.outgoing == Some(o.(nextChunk := o.nextChunk + 1)) && s'.sent == s.sent
               else
                 && s'.bulkOut == s.bulkOut && s'.outgoing.None? && o.ack.Some?
                 && s'.sent == if o.ack == Some(true) then s.sent + [o.revisionId] else s.sent)
  {
    hide SlicesOf, ChunkCountFor, Sound;
    if s.outgoing.None? && s.toServe[0] in s.disk.tables.rows {
      SoundRow(sha, s.disk, s.toServe[0]);
    }
  }

  lemma SoundRow(sha: Digest, d: Disk, id: RevisionId)
    requires Sound(sha, d) && id in d.tables.rows
    ensures d.tables.rows[id].hash in d.blobs && |BytesOf(d, id)| == d.tables.rows[id].sizeBytes
  {
    hide Closed, Acyclic, HeadsStored, KeysResolve, LogsLinked;
  }

  lemma ServeSays(sha: Digest, chunkBytes: nat, s: Side)
    requires chunkBytes > 0 && ServeStep(chunkBytes, s).Some? && Sound(sha, s.disk)
    ensures var s' := ServeStep(chunkBytes, s).value;
      && Acks(s'.out) == Acks(s.out) && s'.receiver == s.receiver && s'.received == s.received && s'.disk == s.disk
      && SaysOnlyTransfers(s.out, s'.out)
      && ((s'.transferSeq == s.transferSeq && Headers(s'.out) == Headers(s.out))
          || (s'.transferSeq == s.transferSeq + 1 && s.toServe != [] && s.toServe[0] in s.disk.tables.rows
              && Headers(s'.out) == Headers(s.out) + [TrueHeader(s.disk.tables, chunkBytes, s.transferSeq + 1, s.toServe[0])]))
  {
    hide ServeStep, Sound, Acks, Headers, HasComplete, TrueHeader, SlicesOf;
    ServeMeans(sha, chunkBytes, s);
    if s.outgoing.None? && s.toServe[0] in s.disk.tables.rows {
      AppendReads(s.out, RevisionHeader(TrueHeader(s.disk.tables, chunkBytes, s.transferSeq + 1, s.toServe[0])));
      assert Acks(s.out) + [] == Acks(s.out);
    }
  }

  /** All answers that the first `n` events call for. */
  ghost function AnswersOver(sha: Digest, ss: seq<Side>, es: seq<Event>, n: nat): seq<(RevisionId, bool)>
    requires |ss| == |es| + 1 && n <= |es|
  {
    if n == 0 then [] else AnswersOver(sha, ss, es, n - 1) + AnswersTo(sha, ss[n - 1], es[n - 1])
  }

  /** One event: the answers it calls for are given, and they are what `received` follows. */
  lemma EventAnswers(sha: Digest, chunkBytes: nat, s: Side, e: Event)
    requires chunkBytes > 0 && AfterEvent(sha, chunkBytes, s, e).Some? && s.hello.Hello? && Sound(sha, s.disk) && ReceiverFit(s.receiver)
    ensures var s' := AfterEvent(sha, chunkBytes, s, e).value;
      && Acks(s'.out) == Acks(s.out) + AnswersTo(sha, s, e) && ReceiverFit(s'.receiver)
      && s'.received == s.received + Taken(AnswersTo(sha, s, e))
  {
    hide OnControl, OnBulk, RunStep, ServeStep, IngestStep, Sound, Acks, Headers, ReceiverFit, FrameMisfits, WouldTake, SaysOnlyTransfers, OnHeader;
    assert Acks(s.out) + [] == Acks(s.out) && s.received + [] == s.received;
    match e
    case ControlIn(m) =>
      ControlAnswers(sha, s, m);
      if m.RevisionHeader? {
        RefusingTakesNone(OnHeader(s.receiver, m.header).refused);
      }
    case BulkIn(f) => BulkAnswers(sha, s, f);
    case RunGoes(c) => RunSays(sha, s, c);
    case Serves => ServeSays(sha, chunkBytes, s);
    case Ingests =>
      IngestIsPossible(sha, s);
      IngestSays(sha, s);
  }

  lemma IngestIsPossible(sha: Digest, s: Side)
    requires IngestStep(sha, s).Some?
    ensures s.receiver.ready != [] && s.remote.Some?
  {
    hide Replay, IngestReceivedRevision;
  }

  /**
   Whatever the peer sends: the answers given are, in order, exactly those called for. A finished transfer
   is accepted if the store has or takes it and refused otherwise, a transfer that a frame does not fit is
   refused, and nothing else is answered; and what counts as received is exactly what was accepted.
   */
  lemma {:induction false} AnswersAccounted(sha: Digest, chunkBytes: nat, hello: Message, vaultId: Option<VaultId>, d: Disk,
      ss: seq<Side>, es: seq<Event>, n: nat)
    requires chunkBytes > 0 && IsLife(sha, chunkBytes, hello, vaultId, d, ss, es) && n <= |es|
    requires SizeFaithful(sha) && Sound(sha, d)
    ensures Acks(ss[n].out) == AnswersOver(sha, ss, es, n) && Taken(Acks(ss[n].out)) == ss[n].received
    ensures ReceiverFit(ss[n].receiver)
  {
    hide AfterEvent, StoreKept, Sound, SizeFaithful, Guarded, ReceiverFit, Acks, AnswersTo, Taken;
    if n == 0 {
      FreshAnswers(ss[0]);
    } else {
      AnswersAccounted(sha, chunkBytes, hello, vaultId, d, ss, es, n - 1);
      Before(sha, chunkBytes, hello, vaultId, d, ss, es, n - 1);
      assert AfterEvent(sha, chunkBytes, ss[n - 1], es[n - 1]) == Some(ss[n - 1 + 1]);
      EventAnswers(sha, chunkBytes, ss[n - 1], es[n - 1]);
      TakenConcat(Acks(ss[n - 1].out), AnswersTo(sha, ss[n - 1], es[n - 1]));
    }
  }

  /** What every state of a life has. */
  lemma Before(sha: Digest, chunkBytes: nat, hello: Message, vaultId: Option<VaultId>, d: Disk, ss: seq<Side>, es: seq<Event>, n: nat)
    requires chunkBytes > 0 && IsLife(sha, chunkBytes, hello, vaultId, d, ss, es) && n <= |es|
    requires SizeFaithful(sha) && Sound(sha, d)
    ensures Sound(sha, ss[n].disk) && ss[n].hello.Hello? && Guarded(ss[n]) && StoreKept(sha, d, ss[n])
  {
    hide AfterEvent, StoreKept, Sound, SizeFaithful, Guarded;
    StoreKeptAlways(sha, chunkBytes, hello, vaultId, d, ss, es, n);
    LifeGuarded(sha, chunkBytes, hello, vaultId, d, ss, es, n);
    SoundThen(sha, d, ss[n]);
    GuardedGreets(ss[n]);
  }

  lemma GuardedGreets(s: Side)
    requires Guarded(s)
    ensures s.hello.Hello?
  {
    hide SaysNothing;
  }

  lemma FreshAnswers(s: Side)
    requires s.out == [] && s.received == [] && s.receiver == IDLE
    ensures Acks(s.out) == [] && Taken(Acks(s.out)) == s.received && ReceiverFit(s.receiver)
  {
  }

  // ---- every header ------------------------------------------------------------------

  /** The headers said so far are numbered from one and describe stored revisions. */
  ghost predicate HeadersTrue(chunkBytes: nat, s: Side)
    requires chunkBytes > 0
  {
    s.transferSeq == |Headers(s.out)|
    && forall i :: 0 <= i < |Headers(s.out)| ==>
         var id := Headers(s.out)[i].revisionId;
         id in s.disk.tables.rows && Headers(s.out)[i] == TrueHeader(s.disk.tables, chunkBytes, i + 1, id)
  }

  lemma HeadersStay(chunkBytes: nat, s: Side, s': Side)
    requires chunkBytes > 0 && HeadersTrue(chunkBytes, s) && Headers(s'.out) == Headers(s.out) && s'.transferSeq == s.transferSeq
    requires HistoryKept(s.disk.tables, s'.disk.tables)
    ensures HeadersTrue(chunkBytes, s')
  {
    hide Headers;
  }

  lemma HeaderJoins(chunkBytes: nat, s: Side, s': Side, id: RevisionId)
    requires chunkBytes > 0 && HeadersTrue(chunkBytes, s) && id in s.disk.tables.rows && s'.disk == s.disk
    requires s'.transferSeq == s.transferSeq + 1
    requires Headers(s'.out) == Headers(s.out) + [TrueHeader(s.disk.tables, chunkBytes, s.transferSeq + 1, id)]
    ensures HeadersTrue(chunkBytes, s')
  {
    hide Headers;
  }

  lemma HandlersNumber(sha: Digest, chunkBytes: nat, s: Side, e: Event)
    requires chunkBytes > 0 && AfterEvent(sha, chunkBytes, s, e).Some? && !e.Serves? && s.hello.Hello?
    ensures AfterEvent(sha, chunkBytes, s, e).value.transferSeq == s.transferSeq
  {
    hide OnHeader, OnFrame, RejectAll, RunStep, IngestStep, ServeStep;
    match e
    case ControlIn(m) =>
      if m.RevisionHeader? {
        var r := OnHeader(s.receiver, m.header);
        RejectAllFrame(s.(receiver := r.(refused := [])), r.refused);
      }
    case BulkIn(f) =>
      var r := OnFrame(s.receiver, f);
      RejectAllFrame(s.(receiver := r.(refused := [])), r.refused);
    case RunGoes(c) => RunNumbers(sha, s, c);
    case Ingests => IngestShape(sha, s);
  }

  lemma RunNumbers(sha: Digest, s: Side, c: Choice)
    requires RunStep(sha, s, c).Some? && s.hello.Hello?
    ensures RunStep(sha, s, c).value.transferSeq == s.transferSeq
  {
    hide RunStep, SaysNoTransfer;
    RunStepFrame(sha, s, c);
  }

  lemma EventHeaders(sha: Digest, chunkBytes: nat, s: Side, e: Event)
    requires chunkBytes > 0 && AfterEvent(sha, chunkBytes, s, e).Some? && s.hello.Hello? && Sound(sha, s.disk) && ReceiverFit(s.receiver)
    requires HeadersTrue(chunkBytes, s) && HistoryKept(s.disk.tables, AfterEvent(sha, chunkBytes, s, e).value.disk.tables)
    ensures HeadersTrue(chunkBytes, AfterEvent(sha, chunkBytes, s, e).value)
  {
    hide AfterEvent, OnControl, OnBulk, RunStep, ServeStep, IngestStep, Sound, Acks, Headers, ReceiverFit, HeadersTrue, HistoryKept;
    hide AnswersTo, TrueHeader, SaysOnlyTransfers, WouldTake;
    var s' := AfterEvent(sha, chunkBytes, s, e).value;
    EventIs(sha, chunkBytes, s, e);
    if e.Serves? {
      ServeSays(sha, chunkBytes, s);
      if s'.transferSeq == s.transferSeq {
        HeadersStay(chunkBytes, s, s');
      } else {
        HeaderJoins(chunkBytes, s, s', s.toServe[0]);
      }
    } else {
      HandlersNumber(sha, chunkBytes, s, e);
      match e {
        case ControlIn(m) => ControlAnswers(sha, s, m);
        case BulkIn(f) => BulkAnswers(sha, s, f);
        case RunGoes(c) => RunSays(sha, s, c);
        case Ingests => IngestSays(sha, s);
        case _ =>
      }
      HeadersStay(chunkBytes, s, s');
    }
  }

  lemma EventIs(sha: Digest, chunkBytes: nat, s: Side, e: Event)
    requires chunkBytes > 0
    ensures match e
      case ControlIn(m) => AfterEvent(sha, chunkBytes, s, e) == Some(OnControl(s, m))
      case BulkIn(f) => AfterEvent(sha, chunkBytes, s, e) == Some(OnBulk(s, f))
      case RunGoes(c) => AfterEvent(sha, chunkBytes, s, e) == RunStep(sha, s, c)
      case Serves => AfterEvent(sha, chunkBytes, s, e) == ServeStep(chunkBytes, s)
      case Ingests => AfterEvent(sha, chunkBytes, s, e) == IngestStep(sha, s)
  {
    hide OnControl, OnBulk, RunStep, ServeStep, IngestStep;
  }

  lemma HistoryStays(sha: Digest, chunkBytes: nat, d: Disk, s: Side, e: Event)
    requires chunkBytes > 0 && Guarded(s) && StoreKept(sha, d, s) && SizeFaithful(sha) && AfterEvent(sha, chunkBytes, s, e).Some?
    ensures HistoryKept(s.disk.tables, AfterEvent(sha, chunkBytes, s, e).value.disk.tables)
  {
    hide AfterEvent, Guarded, SizeFaithful, Sound, NoHeadMoved, HistoryKept;
    SelfKept(sha, d, s);
    EventKeepsStore(sha, chunkBytes, s.disk, s, e);
  }

  /** Whatever the peer sends: the headers said are numbered from one, each the true header of a stored revision. */
  lemma {:induction false} EveryHeaderIsTrue(sha: Digest, chunkBytes: nat, hello: Message, vaultId: Option<VaultId>, d: Disk,
      ss: seq<Side>, es: seq<Event>, n: nat)
    requires chunkBytes > 0 && IsLife(sha, chunkBytes, hello, vaultId, d, ss, es) && n <= |es|
    requires SizeFaithful(sha) && Sound(sha, d)
    ensures HeadersTrue(chunkBytes, ss[n])
  {
    hide AfterEvent, StoreKept, Sound, SizeFaithful, Guarded, ReceiverFit, HeadersTrue, HistoryKept, Acks, Taken;
    if n == 0 {
      FreshHeaders(chunkBytes, ss[0]);
    } else {
      EveryHeaderIsTrue(sha, chunkBytes, hello, vaultId, d, ss, es, n - 1);
      AnswersAccounted(sha, chunkBytes, hello, vaultId, d, ss, es, n - 1);
      Before(sha, chunkBytes, hello, vaultId, d, ss, es, n - 1);
      assert AfterEvent(sha, chunkBytes, ss[n - 1], es[n - 1]) == Some(ss[n - 1 + 1]);
      HistoryStays(sha, chunkBytes, d, ss[n - 1], es[n - 1]);
      EventHeaders(sha, chunkBytes, ss[n - 1], es[n - 1]);
    }
  }

  lemma FreshHeaders(chunkBytes: nat, s: Side)
    requires chunkBytes > 0 && s.out == [] && s.transferSeq == 0
    ensures HeadersTrue(chunkBytes, s)
  {
  }

  // ---- what is said of the vault -----------------------------------------------------

  /** What a device says of its vault: its id, name, number of revisions and head; or that it has none. */
  ghost function TrueSummary(own: Option<VaultId>, t: Tables): Message {
    if own.Some? && own.value in t.vaults then
      VaultSummary(own.value, t.vaults[own.value].name, |VaultGraph(t, own.value)|, t.vaults[own.value].head)
    else VaultSummary(VaultId("\0none"), "", 0, None)
  }

  /** One message of the session's own course, where it belongs. */
  ghost predicate SaidRightly(own: Option<VaultId>, d: Disk, s: Side, m: Message) {
    match m
    case VaultSummary(_, _, _, _) => m == TrueSummary(own, d.tables) && (own.Some? ==> own.value in d.tables.vaults)
    case HistorySummary(v, _) => PastSummary(s.phase) || s.phase == Failed
    case WantRevisions(v, ids) => s.vaultId == Some(v) && ids == s.wanted && (s.phase in {AwaitWants, Transferring, AwaitComplete, Finished, Failed})
    case SyncComplete(v) => s.vaultId == Some(v) && s.phase in {AwaitComplete, Finished}
    case _ => true
  }

  ghost predicate AllSaidRightly(own: Option<VaultId>, d: Disk, s: Side) {
    && (forall i :: 0 <= i < |s.out| ==> SaidRightly(own, d, s, s.out[i]))
    && (s.phase in {AwaitComplete, Finished} ==> exists i :: 0 <= i < |s.out| && s.out[i].SyncComplete?)
  }

  lemma HandlersSayRightly(own: Option<VaultId>, d: Disk, s: Side, s': Side)
    requires AllSaidRightly(own, d, s) && SaysOnlyTransfers(s.out, s'.out) && s'.vaultId == s.vaultId && s'.wanted == s.wanted
    requires s'.phase == s.phase || (s.phase == Transferring && s'.phase == Failed)
    ensures AllSaidRightly(own, d, s')
  {
    forall i | 0 <= i < |s'.out|
      ensures SaidRightly(own, d, s', s'.out[i])
    {
      assert i < |s.out| ==> s'.out[i] == s.out[i] && SaidRightly(own, d, s, s.out[i]);
    }
    if s'.phase in {AwaitComplete, Finished} {
      var i :| 0 <= i < |s.out| && s.out[i].SyncComplete?;
      assert s'.out[i].SyncComplete?;
    }
  }

  /** The run says one message at a time. */
  lemma OneMoreRightly(own: Option<VaultId>, d: Disk, s: Side, s': Side, m: Message)
    requires AllSaidRightly(own, d, s) && (s'.out == s.out || (s'.out == s.out + [m] && SaidRightly(own, d, s', m)))
    requires forall x :: SaidRightly(own, d, s, x) && x in s.out ==> SaidRightly(own, d, s', x)
    requires s'.phase in {AwaitComplete, Finished} ==> s.phase in {AwaitComplete, Finished} || (m.SyncComplete? && s'.out == s.out + [m])
    ensures AllSaidRightly(own, d, s')
  {
    hide SaidRightly;
    forall i | 0 <= i < |s'.out|
      ensures SaidRightly(own, d, s', s'.out[i])
    {
      if i < |s.out| {
        assert s.out[i] in s.out && s'.out[i] == s.out[i];
      }
    }
    if s'.phase in {AwaitComplete, Finished} {
      if s.phase in {AwaitComplete, Finished} {
        var i :| 0 <= i < |s.out| && s.out[i].SyncComplete?;
        assert s'.out[i].SyncComplete?;
      } else {
        assert s'.out[|s.out|].SyncComplete?;
      }
    }
  }

  lemma HelloRightly(own: Option<VaultId>, d: Disk, s: Side, m: Message, c: Choice)
    requires AllSaidRightly(own, d, s) && s.phase == AwaitHello && m.Hello?
    ensures AllSaidRightly(own, d, ConsumeHello(s, m, c))
  {
    hide AllSaidRightly;
    var s' := ConsumeHello(s, m, c);
    if s'.out != s.out {
      OneMoreRightly(own, d, s, s', s'.out[|s.out|]);
    } else {
      OneMoreRightly(own, d, s, s', Bye);
    }
  }

  lemma AuthRightly(own: Option<VaultId>, d: Disk, s: Side, c: Choice)
    requires AllSaidRightly(own, d, s) && s.phase == AwaitAuth && s.vaultId == own && s.disk == d
    ensures AllSaidRightly(own, d, ConsumeAuth(s, c))
  {
    hide AllSaidRightly, SummaryOf, TrueSummary, SaidRightly;
    SummaryIsSo(own, d, s);
    var s' := ConsumeAuth(s, c);
    forall x | SaidRightly(own, d, s, x)
      ensures SaidRightly(own, d, s', x)
    {
      StillRightly(own, d, s, s', x);
    }
    AuthMessages(own, d, s');
    var said := if !c.decodes then Bye
      else if !c.trusted then Error(Unauthorized, "")
      else if s.vaultId.Some? && s.vaultId.value !in s.disk.tables.vaults then Error(UnknownVault, "")
      else SummaryOf(s);
    OneMoreRightly(own, d, s, s', said);
  }

  /** Before the summary nothing has been said that a later phase could make untrue. */
  lemma StillRightly(own: Option<VaultId>, d: Disk, s: Side, s': Side, x: Message)
    requires SaidRightly(own, d, s, x) && s.phase == AwaitAuth
    ensures SaidRightly(own, d, s', x)
  {
    hide TrueSummary;
  }

  lemma AuthMessages(own: Option<VaultId>, d: Disk, s: Side)
    ensures SaidRightly(own, d, s, Bye) && SaidRightly(own, d, s, Error(Unauthorized, "")) && SaidRightly(own, d, s, Error(UnknownVault, ""))
    ensures (own.Some? ==> own.value in d.tables.vaults) && TrueSummary(own, d.tables).VaultSummary? ==>
      SaidRightly(own, d, s, TrueSummary(own, d.tables))
  {
    hide TrueSummary;
  }

  lemma SummaryIsSo(own: Option<VaultId>, d: Disk, s: Side)
    requires s.vaultId == own && s.disk == d
    ensures SummaryOf(s) == TrueSummary(own, d.tables) && SummaryOf(s).VaultSummary?
  {
    hide VaultGraph;
  }

  lemma SummaryRightly(own: Option<VaultId>, d: Disk, sha: Digest, s: Side, m: Message, c: Choice)
    requires AllSaidRightly(own, d, s) && s.phase == AwaitSummary && m.VaultSummary? && ConsumeSummary(sha, s, m, c).Some?
    ensures AllSaidRightly(own, d, ConsumeSummary(sha, s, m, c).value)
  {
    hide AllSaidRightly, IsHistory, Replay, AdoptVault, TrueSummary;
    var s' := ConsumeSummary(sha, s, m, c).value;
    if s'.out != s.out {
      OneMoreRightly(own, d, s, s', s'.out[|s.out|]);
    } else {
      OneMoreRightly(own, d, s, s', Bye);
    }
  }

  lemma HistoryRightly(own: Option<VaultId>, d: Disk, s: Side, m: Message, c: Choice)
    requires AllSaidRightly(own, d, s) && s.phase == AwaitHistory && m.HistorySummary? && s.vaultId.Some? && ConsumeHistory(s, m, c).Some?
    ensures AllSaidRightly(own, d, ConsumeHistory(s, m, c).value)
  {
    hide AllSaidRightly, AcceptableHistory, IsWantList, VaultGraph, HistoryGraph, TrueSummary;
    var s' := ConsumeHistory(s, m, c).value;
    if s'.out != s.out {
      OneMoreRightly(own, d, s, s', s'.out[|s.out|]);
    } else {
      OneMoreRightly(own, d, s, s', Bye);
    }
  }

  lemma WantsRightly(own: Option<VaultId>, d: Disk, s: Side, m: Message)
    requires AllSaidRightly(own, d, s) && s.phase == AwaitWants && m.WantRevisions?
    ensures AllSaidRightly(own, d, ConsumeWants(s, m))
  {
    hide AllSaidRightly, TrueSummary;
    var s' := ConsumeWants(s, m);
    OneMoreRightly(own, d, s, s', Bye);
  }

  lemma FailRightly(own: Option<VaultId>, d: Disk, s: Side)
    requires AllSaidRightly(own, d, s) && s.phase !in {AwaitComplete, Finished}
    ensures AllSaidRightly(own, d, Fail(s))
  {
    hide AllSaidRightly, TrueSummary;
    var s' := Fail(s);
    OneMoreRightly(own, d, s, s', Bye);
  }

  lemma ConsumeSaysRightly(own: Option<VaultId>, d: Disk, sha: Digest, s: Side, m: Message, c: Choice)
    requires AllSaidRightly(own, d, s) && Awaited(s.phase, m) && Consume(sha, s, m, c).Some?
    requires s.phase == AwaitAuth ==> s.vaultId == own && s.disk == d
    ensures AllSaidRightly(own, d, Consume(sha, s, m, c).value)
  {
    hide AllSaidRightly, ConsumeHello, ConsumeAuth, ConsumeSummary, ConsumeHistory, ConsumeWants;
    match s.phase
    case AwaitHello => HelloRightly(own, d, s, m, c);
    case AwaitAuth => AuthRightly(own, d, s, c);
    case AwaitSummary => SummaryRightly(own, d, sha, s, m, c);
    case AwaitHistory =>
      if s.vaultId.None? {
        FailRightly(own, d, s);
      } else {
        HistoryRightly(own, d, s, m, c);
      }
    case AwaitWants => WantsRightly(own, d, s, m);
  }

  lemma RunSaysRightly(own: Option<VaultId>, d: Disk, sha: Digest, s: Side, c: Choice)
    requires AllSaidRightly(own, d, s) && RunStep(sha, s, c).Some? && s.hello.Hello?
    requires s.phase == AwaitAuth ==> s.vaultId == own && s.disk == d
    ensures AllSaidRightly(own, d, RunStep(sha, s, c).value)
  {
    hide Consume, FirstAwaited, AllSaidRightly;
    var s' := RunStep(sha, s, c).value;
    if s.phase in {Unstarted, Transferring, AwaitComplete} || s.inboxFailed {
      PlainRightly(own, d, s, s');
    } else {
      var i := FirstAwaited(s.phase, s.inbox).value;
      var popped := s.(inbox := s.inbox[..i] + s.inbox[i + 1..]);
      PoppedRightly(own, d, s, popped);
      ConsumeSaysRightly(own, d, sha, popped, s.inbox[i], c);
    }
  }

  lemma PoppedRightly(own: Option<VaultId>, d: Disk, s: Side, s': Side)
    requires AllSaidRightly(own, d, s) && s' == s.(inbox := s'.inbox)
    ensures AllSaidRightly(own, d, s')
  {
    HandlersSayRightly(own, d, s, s');
  }

  /** The pieces of the run that await nothing. */
  lemma PlainRightly(own: Option<VaultId>, d: Disk, s: Side, s': Side)
    requires AllSaidRightly(own, d, s) && s' == s.(phase := s'.phase, out := s'.out)
    requires (s.phase == Unstarted && s'.phase == AwaitHello && s.hello.Hello? && s'.out == s.out + [s.hello])
          || (s.phase == Transferring && s'.phase == AwaitComplete && s.vaultId.Some? && s'.out == s.out + [SyncComplete(s.vaultId.value)])
          || (s.phase == AwaitComplete && s'.phase == Finished && s'.out == s.out)
          || (s.phase in {AwaitHello, AwaitAuth, AwaitSummary, AwaitHistory, AwaitWants} && s'.phase == Failed && s'.out == s.out)
    ensures AllSaidRightly(own, d, s')
  {
    if s'.out != s.out {
      OneMoreRightly(own, d, s, s', s'.out[|s.out|]);
    } else {
      OneMoreRightly(own, d, s, s', Bye);
    }
  }

  lemma EventSaysRightly(own: Option<VaultId>, sha: Digest, chunkBytes: nat, d: Disk, s: Side, e: Event)
    requires chunkBytes > 0 && AfterEvent(sha, chunkBytes, s, e).Some? && s.hello.Hello? && Sound(sha, s.disk) && ReceiverFit(s.receiver)
    requires AllSaidRightly(own, d, s) && (s.phase == AwaitAuth ==> s.vaultId == own && s.disk == d)
    ensures AllSaidRightly(own, d, AfterEvent(sha, chunkBytes, s, e).value)
  {
    hide AfterEvent, OnControl, OnBulk, RunStep, ServeStep, IngestStep, Sound, Acks, Headers, ReceiverFit, AllSaidRightly;
    hide AnswersTo, TrueHeader, SaysOnlyTransfers, WouldTake, DrainsRightly, IsRest;
    var s' := AfterEvent(sha, chunkBytes, s, e).value;
    EventIs(sha, chunkBytes, s, e);
    if e.RunGoes? {
      RunSaysRightly(own, d, sha, s, e.choice);
    } else {
      HandlerLeavesOpening(sha, chunkBytes, s, e);
      match e {
        case ControlIn(m) => ControlAnswers(sha, s, m);
        case BulkIn(f) => BulkAnswers(sha, s, f);
        case Serves => ServeSays(sha, chunkBytes, s);
        case Ingests => IngestSays(sha, s);
        case _ =>
      }
      HandlersSayRightly(own, d, s, s');
    }
  }

  lemma AtAuth(own: Option<VaultId>, d: Disk, s: Side, es: seq<Event>, n: nat)
    requires n <= |es| && OpenedWell(own, d, s, es, n)
    ensures s.phase == AwaitAuth ==> s.vaultId == own && s.disk == d
  {
    hide Heard, HistoryGraph, IsRest;
  }

  /**
   Whatever the peer sends: the summary says the vault's id, name, number of revisions and head as they
   were; the want list said is the one kept; and completion is said exactly by a session that completed.
   */
  lemma {:induction false} AllWasSaidRightly(sha: Digest, chunkBytes: nat, hello: Message, vaultId: Option<VaultId>, d: Disk,
      ss: seq<Side>, es: seq<Event>, n: nat)
    requires chunkBytes > 0 && IsLife(sha, chunkBytes, hello, vaultId, d, ss, es) && n <= |es|
    requires SizeFaithful(sha) && Sound(sha, d)
    ensures AllSaidRightly(vaultId, d, ss[n])
  {
    hide AfterEvent, StoreKept, Sound, SizeFaithful, Guarded, ReceiverFit, AllSaidRightly, OpenedWell, Acks, Taken;
    if n == 0 {
      FreshSaid(vaultId, d, ss[0]);
    } else {
      AllWasSaidRightly(sha, chunkBytes, hello, vaultId, d, ss, es, n - 1);
      AnswersAccounted(sha, chunkBytes, hello, vaultId, d, ss, es, n - 1);
      Before(sha, chunkBytes, hello, vaultId, d, ss, es, n - 1);
      OpeningWasChecked(sha, chunkBytes, hello, vaultId, d, ss, es, n - 1);
      AtAuth(vaultId, d, ss[n - 1], es, n - 1);
      assert AfterEvent(sha, chunkBytes, ss[n - 1], es[n - 1]) == Some(ss[n - 1 + 1]);
      EventSaysRightly(vaultId, sha, chunkBytes, d, ss[n - 1], es[n - 1]);
    }
  }

  lemma FreshSaid(own: Option<VaultId>, d: Disk, s: Side)
    requires s.out == [] && s.phase == Unstarted
    ensures AllSaidRightly(own, d, s)
  {
  }

  // ---- cancelling, refusing, waiting -------------------------------------------------

  /** Taking back an open transfer: it is no longer open and its revision no longer expected; nothing else changes but the waiting. */
  lemma CancelForgets(s: Side, q: nat, reason: string)
    ensures var s' := OnControl(s, TransferCancel(q, reason));
      && q !in s'.receiver.assemblers
      && (q in s.receiver.assemblers ==> s'.expected == s.expected - {s.receiver.assemblers[q].header.revisionId})
      && (forall k :: k != q ==> (k in s'.receiver.assemblers <==> k in s.receiver.assemblers))
      && (forall k :: k != q && k in s.receiver.assemblers ==> s'.receiver.assemblers[k] == s.receiver.assemblers[k])
      && s'.receiver == s.receiver.(assemblers := s'.receiver.assemblers)
      && s' == s.(receiver := s'.receiver, expected := s'.expected, drained := s'.drained)
      && (q !in s.receiver.assemblers ==> s' == s)
  {
  }

  /**
   While a side waits for what it expects, each thing that ends a transfer, and the peer's completion,
   ends the waiting if nothing is expected any more or the peer has completed.
   */
  lemma ProgressWakes(sha: Digest, s: Side)
    requires s.phase == Transferring
    ensures forall v :: OnControl(s, SyncComplete(v)).drained && OnControl(s, SyncComplete(v)).peerCompleted
    ensures forall q, reason :: q in s.receiver.assemblers ==>
      var s' := OnControl(s, TransferCancel(q, reason)); s'.drained <==> s.drained || s'.expected == {} || s'.peerCompleted
    ensures forall id :: var s' := Reject(s, id); s'.drained <==> s.drained || s'.expected == {} || s'.peerCompleted
    ensures IngestStep(sha, s).Some? ==>
      var s' := IngestStep(sha, s).value; s'.drained <==> s.drained || s'.expected == {} || s'.peerCompleted
  {
    hide Replay, IngestReceivedRevision, InputOf;
  }

  /** The waiting begins with the transfers, and is over at once exactly if nothing is expected, whatever the peer has said. */
  lemma WaitingBegins(sha: Digest, s: Side, c: Choice)
    requires s.phase == AwaitWants && RunStep(sha, s, c).Some? && !s.inboxFailed
    ensures var s' := RunStep(sha, s, c).value;
      s'.phase == Transferring && (s'.drained <==> s.expected == {}) && s'.expected == s.expected
  {
  }

  /** An answer counts for the revision being served, and only the first one does. */
  lemma FirstAnswerCounts(s: Side, id: RevisionId, accepted: bool, reason: Option<string>)
    ensures var s' := OnControl(s, RevisionAck(id, accepted, reason));
      && s' == s.(outgoing := s'.outgoing)
      && (s.outgoing.Some? && s.outgoing.value.revisionId == id && s.outgoing.value.ack.None? ==>
            s'.outgoing == Some(s.outgoing.value.(ack := Some(accepted))))
      && (s.outgoing.None? || s.outgoing.value.revisionId != id || s.outgoing.value.ack.Some? ==> s' == s)
  {
  }

  /** The opening refuses aloud: another version, a peer that is not trusted, a vault this device does not have. */
  lemma OpeningRefuses(sha: Digest, s: Side, c: Choice)
    requires s.phase in {AwaitHello, AwaitAuth} && !s.inboxFailed && FirstAwaited(s.phase, s.inbox).Some?
    ensures var m := s.inbox[FirstAwaited(s.phase, s.inbox).value];
      RunStep(sha, s, c).Some? && var s' := RunStep(sha, s, c).value;
      && (s.phase == AwaitHello && m.protocolVersion != 1 ==> s'.phase == Failed && s'.out == s.out + [Error(UnsupportedVersion, "")])
      && (s.phase == AwaitHello && m.protocolVersion == 1 && c.decodes ==>
            s'.phase == AwaitAuth && s'.out == s.out + [Auth(c.signature)])
      && (s.phase == AwaitAuth && c.decodes && !c.trusted ==>
            s'.phase == Failed && s'.remote == s.remote && s'.out == s.out + [Error(Unauthorized, "")])
      && (s.phase == AwaitAuth && c.decodes && c.trusted && s.vaultId.Some? && s.vaultId.value !in s.disk.tables.vaults ==>
            s'.phase == Failed && s'.out == s.out + [Error(UnknownVault, "")])
      && (!c.decodes && (s.phase == AwaitHello ==> m.protocolVersion == 1) ==> s'.phase == Failed && s'.out == s.out)
  {
    hide SummaryOf;
  }

  /** A side that awaits a message goes no further once its inbox has failed. */
  lemma FailedInboxEnds(sha: Digest, s: Side, c: Choice)
    requires s.phase in {AwaitHello, AwaitAuth, AwaitSummary, AwaitHistory, AwaitWants} && s.inboxFailed
    ensures RunStep(sha, s, c) == Some(s.(phase := Failed))
  {
  }

  /** A reported error fails the inbox, and so does a header from nobody known; nothing else that is heard does. */
  lemma FailsTheInboxIff(s: Side, m: Message)
    ensures OnControl(s, m).inboxFailed <==> s.inboxFailed || m.Error? || (m.RevisionHeader? && s.remote.None?)
  {
    hide OnHeader, RejectAll;
    if m.RevisionHeader? {
      var r := OnHeader(s.receiver, m.header);
      RejectAllFrame(s.(receiver := r.(refused := [])), r.refused);
    }
  }
}
