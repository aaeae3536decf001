/**
 Progress of a joint session of two honest devices. Every step uses up a lexicographic budget, and
 as long as no frame has been lost some step that loses none is possible until both have finished.
 */
module JointProgress {
  import opened Basics
  import opened Reachability
  import opened RemoteHistory
  import opened Framing
  import opened Chunks
  import opened Store
  import opened Engine
  import opened EngineRuns
  import opened Messages
  import opened Inbound
  import opened Session
  import opened TransferLink
  import opened JointSession
  import opened JointSafety
  import opened JointTransfers
  import opened JointIngest
  import opened JointLoss

  // ---- the budget ------------------------------------------------------------------

  /** Unread control messages: a header can still become a finished transfer. */
  function MessageCost(m: Message): nat {
    if m.RevisionHeader? then 3 else 1
  }

  function UnreadCost(ms: seq<Message>): nat {
    if ms == [] then 0 else MessageCost(ms[0]) + UnreadCost(ms[1..])
  }

  /** Serving one revision: announce it, push and deliver its frames, hear the answer, move on. */
  function RevisionCost(d: Disk, chunkBytes: nat, id: RevisionId): nat
    requires chunkBytes > 0
  {
    if id in d.tables.rows && d.tables.rows[id].hash in d.blobs
    then 5 + 4 * ChunkCountFor(|d.blobs[d.tables.rows[id].hash]|, chunkBytes) else 1
  }

  function ListCost(d: Disk, chunkBytes: nat, ids: seq<RevisionId>): nat
    requires chunkBytes > 0
  {
    if ids == [] then 0 else RevisionCost(d, chunkBytes, ids[0]) + ListCost(d, chunkBytes, ids[1..])
  }

  function OutgoingCost(o: Option<Outgoing>): nat {
    if o.None? then 0 else 1 + (if o.value.nextChunk <= |o.value.slices| then 4 * (|o.value.slices| - o.value.nextChunk) else 0)
  }

  /** What A still has to do, and what is on its way to A. */
  ghost function HalfCost(d: Disk, chunkBytes: nat, x: Side, peer: Side, ctl: nat, bulk: nat): nat
    requires chunkBytes > 0 && ctl <= |peer.out| && bulk <= |peer.bulkOut|
  {
    ListCost(d, chunkBytes, x.toServe) + OutgoingCost(x.outgoing) + UnreadCost(peer.out[ctl..])
      + 3 * (|peer.bulkOut| - bulk) + 2 * |x.receiver.ready|
  }

  /** First budget: how far the two runs are from their end. */
  function RunBudget(w: World): nat {
    (if Rank(w.a.phase) <= 8 then 8 - Rank(w.a.phase) else 0) + (if Rank(w.b.phase) <= 8 then 8 - Rank(w.b.phase) else 0)
  }

  /** Second budget: what is left of the transfers. */
  ghost function WorkBudget(st: Setting, w: World): nat
    requires st.chunkBytes > 0 && CursorsFit(w)
  {
    HalfCost(st.a, st.chunkBytes, w.a, w.b, w.aCtl, w.aBulk) + HalfCost(st.b, st.chunkBytes, w.b, w.a, w.bCtl, w.bBulk)
  }

  ghost predicate BudgetFalls(st: Setting, w: World, w': World)
    requires st.chunkBytes > 0 && CursorsFit(w) && CursorsFit(w')
  {
    RunBudget(w') < RunBudget(w) || (RunBudget(w') == RunBudget(w) && WorkBudget(st, w') < WorkBudget(st, w))
  }

  lemma {:induction false} UnreadAppend(ms: seq<Message>, m: Message)
    ensures UnreadCost(ms + [m]) == UnreadCost(ms) + MessageCost(m)
  {
    if ms != [] {
      assert (ms + [m])[1..] == ms[1..] + [m];
      UnreadAppend(ms[1..], m);
    } else {
      assert ms + [m] == [m] && [m][1..] == [];
    }
  }

  lemma UnreadSent(out: seq<Message>, read: nat, m: Message)
    requires read <= |out|
    ensures UnreadCost((out + [m])[read..]) == UnreadCost(out[read..]) + MessageCost(m)
  {
    assert (out + [m])[read..] == out[read..] + [m];
    UnreadAppend(out[read..], m);
  }

  lemma UnreadDelivered(out: seq<Message>, read: nat)
    requires read < |out|
    ensures UnreadCost(out[read..]) == MessageCost(out[read]) + UnreadCost(out[read + 1..])
  {
    assert out[read..][1..] == out[read + 1..];
  }

  // ---- each step spends --------------------------------------------------------------

  lemma RunSpends(st: Setting, w: World, c: Choice)
    requires Inv(st, w) && StepA(st, w, RunMove(c)).Some?
    ensures RunBudget(StepA(st, w, RunMove(c)).value) < RunBudget(w)
  {
    hide Inv, StepA, Link;
    InvCursors(st, w);
    RunKeeps(st, w, c);
    InvRank(st, w);
    InvRank(st, StepA(st, w, RunMove(c)).value);
    RunAdvances(st, w, c);
  }

  lemma InvRank(st: Setting, w: World)
    requires Inv(st, w)
    ensures Rank(w.a.phase) <= 8 && Rank(w.b.phase) <= 8 && !w.a.inboxFailed && w.a.hello.Hello?
    ensures w.a.remote.Some? <==> Rank(w.a.phase) >= 3
  {
    hide StoreFacts, AfterWants, HeadHeard, InboxHolds, ExpectedFacts, Link, CompletionFacts, GoodSetting, SummaryFits, IsHistory;
  }

  /** A step of the run either fails the session or goes to the next phase. */
  lemma RunAdvances(st: Setting, w: World, c: Choice)
    requires st.chunkBytes > 0 && StepA(st, w, RunMove(c)).Some?
    ensures var w' := StepA(st, w, RunMove(c)).value;
      w' == w.(a := w'.a) && (w'.a.phase == Failed || Rank(w'.a.phase) == Rank(w.a.phase) + 1)
  {
    hide RunStep;
    RunStepRank(st.sha, w.a, c);
  }

  lemma RunStepRank(sha: Digest, x: Side, c: Choice)
    requires RunStep(sha, x, c).Some?
    ensures var x' := RunStep(sha, x, c).value; x'.phase == Failed || Rank(x'.phase) == Rank(x.phase) + 1
  {
    hide IsHistory, AcceptableHistory, IsWantList, VaultGraph, HistoryGraph, Replay, AdoptVault, FirstAwaited, SummaryOf;
  }

  lemma ServeSpends(st: Setting, w: World)
    requires Inv(st, w) && StepA(st, w, ServeMove).Some?
    ensures var w' := StepA(st, w, ServeMove).value;
      CursorsFit(w') && RunBudget(w') == RunBudget(w) && WorkBudget(st, w') < WorkBudget(st, w)
  {
    hide Inv, StepA, Link, LostFromA, RunBudget, WorkBudget;
    InvCursors(st, w);
    ServeLoses(st, w);
    ServeFrame(st, w);
    if w.a.outgoing.None? {
      NextToServe(st, w);
      ServeStartSpends(st, w);
    } else {
      OutgoingFits(st, w);
      ServeOnSpends(st, w);
    }
  }

  lemma OutgoingFits(st: Setting, w: World)
    requires st.chunkBytes > 0 && CursorsFit(w) && w.a.outgoing.Some?
    requires Link(st.a, st.chunkBytes, SenderOf(w.a, w.bCtl, w.bBulk), ReceiverOf(w.b, w.aCtl))
    ensures w.a.outgoing.value.nextChunk <= |w.a.outgoing.value.slices|
  {
    hide Link;
    OutgoingInRange(st.a, st.chunkBytes, SenderOf(w.a, w.bCtl, w.bBulk), ReceiverOf(w.b, w.aCtl));
  }

  lemma ServeStartSpends(st: Setting, w: World)
    requires st.chunkBytes > 0 && CursorsFit(w) && StepA(st, w, ServeMove).Some? && CursorsFit(StepA(st, w, ServeMove).value)
    requires w.a.phase == Transferring && w.a.outgoing.None? && w.a.toServe != []
    requires var id := w.a.toServe[0];
      && id in st.a.tables.rows && st.a.tables.rows[id].hash in st.a.blobs
      && id in w.a.disk.tables.rows && w.a.disk.tables.rows[id].hash in w.a.disk.blobs
      && BytesOf(w.a.disk, id) == BytesOf(st.a, id)
    ensures var w' := StepA(st, w, ServeMove).value;
      RunBudget(w') == RunBudget(w) && WorkBudget(st, w') < WorkBudget(st, w)
  {
    hide UnreadCost, Slice;
    var id := w.a.toServe[0];
    var slices := SlicesOf(BytesOf(st.a, id), st.chunkBytes);
    var h := HeaderFor(w.a.disk.tables, id, w.a.transferSeq + 1, |slices|);
    ServeStarts(st.chunkBytes, w.a, h, slices);
    UnreadSent(w.a.out, w.bCtl, RevisionHeader(h));
  }

  lemma ServeOnSpends(st: Setting, w: World)
    requires st.chunkBytes > 0 && CursorsFit(w) && StepA(st, w, ServeMove).Some? && CursorsFit(StepA(st, w, ServeMove).value)
    requires w.a.outgoing.Some? && w.a.outgoing.value.nextChunk <= |w.a.outgoing.value.slices|
    ensures var w' := StepA(st, w, ServeMove).value;
      RunBudget(w') == RunBudget(w) && WorkBudget(st, w') < WorkBudget(st, w)
  {
    hide UnreadCost, ListCost, StepA;
    ServeOnIs(st, w);
  }

  lemma ServeOnIs(st: Setting, w: World)
    requires st.chunkBytes > 0 && StepA(st, w, ServeMove).Some?
    requires w.a.outgoing.Some? && w.a.outgoing.value.nextChunk <= |w.a.outgoing.value.slices|
    ensures var w', o := StepA(st, w, ServeMove).value, w.a.outgoing.value;
      && w' == w.(a := w.a.(bulkOut := w'.a.bulkOut, outgoing := w'.a.outgoing, sent := w'.a.sent))
      && if o.nextChunk < |o.slices|
         then |w'.a.bulkOut| == |w.a.bulkOut| + 1 && w'.a.outgoing == Some(o.(nextChunk := o.nextChunk + 1))
         else w'.a.bulkOut == w.a.bulkOut && w'.a.outgoing == None
  {
    hide SlicesOf;
  }

  lemma IngestSpends(st: Setting, w: World)
    requires Inv(st, w) && StepA(st, w, IngestMove).Some?
    ensures var w' := StepA(st, w, IngestMove).value;
      CursorsFit(w') && RunBudget(w') == RunBudget(w) && WorkBudget(st, w') < WorkBudget(st, w)
  {
    hide Inv, StepA, Link, LostFromA, Ingested, IngestStep, Describes, Notify, Replay, UnreadCost, ListCost, IngestReceivedRevision;
    InvCursors(st, w);
    IngestLoses(st, w);
    IngestEnabled(st, w);
    ReadyIsNext(st, w);
    NextIngested(st, w);
    var id := w.a.wanted[|w.a.received|];
    IngestMoveIs(st, w, id);
    IngestedShape(st.sha, w.a, id);
    var a' := Ingested(st.sha, w.a, id);
    NotifyFrame(w.a.(out := a'.out, receiver := IDLE, disk := a'.disk, expected := w.a.expected - {id},
                     received := w.a.received + [id]));
    UnreadSent(w.a.out, w.bCtl, RevisionAck(id, true, None));
  }

  lemma NotifyFrame(x: Side)
    ensures Notify(x) == x.(drained := Notify(x).drained)
  {
  }

  lemma ControlSpends(st: Setting, w: World)
    requires Inv(st, w) && w.aCtl < |w.b.out|
    ensures CursorsFit(w) && CursorsFit(AfterReading(w)) && RunBudget(AfterReading(w)) == RunBudget(w)
    ensures WorkBudget(st, AfterReading(w)) < WorkBudget(st, w)
  {
    hide Inv, Link, LostFromA, OnControl, UnreadCost, ListCost;
    InvCursors(st, w);
    ControlLoses(st, w);
    UnreadDelivered(w.b.out, w.aCtl);
  }

  lemma BulkSpends(st: Setting, w: World)
    requires Inv(st, w) && w.aBulk < |w.b.bulkOut| && StepA(st, w, BulkMove).Some?
    ensures var w' := StepA(st, w, BulkMove).value;
      CursorsFit(w) && CursorsFit(w') && RunBudget(w') == RunBudget(w) && WorkBudget(st, w') < WorkBudget(st, w)
  {
    hide Inv, Link, LostFromA, OnBulk, OnFrame, UnreadCost, ListCost, StepA, DropsA;
    InvCursors(st, w);
    BulkEnabled(st, w);
    BulkLoses(st, w);
  }

  lemma StepASpends(st: Setting, w: World, m: Move)
    requires Inv(st, w) && StepA(st, w, m).Some?
    ensures CursorsFit(w) && CursorsFit(StepA(st, w, m).value) && BudgetFalls(st, w, StepA(st, w, m).value)
  {
    hide Inv, Link, LostFromA, StepA, RunBudget, WorkBudget, DropsA;
    InvCursors(st, w);
    StepALoses(st, w, m);
    match m
    case RunMove(c) => RunSpends(st, w, c);
    case ServeMove => ServeSpends(st, w);
    case IngestMove => IngestSpends(st, w);
    case ControlMove =>
      ReadingIs(st, w);
      ControlSpends(st, w);
    case BulkMove =>
      BulkEnabled(st, w);
      BulkSpends(st, w);
  }

  /** Every step of either device spends: no run of a session goes on for ever. */
  lemma StepSpends(st: Setting, w: World, who: Who, m: Move)
    requires Inv(st, w) && Step(st, w, who, m).Some?
    ensures CursorsFit(w) && CursorsFit(Step(st, w, who, m).value) && BudgetFalls(st, w, Step(st, w, who, m).value)
  {
    hide Inv, Link, LostFromA, StepA, HalfCost;
    InvCursors(st, w);
    match who
    case DeviceA => StepASpends(st, w, m);
    case DeviceB =>
      var st', w' := SwappedSetting(st), Swapped(w);
      InvSwaps(st, w);
      StepASpends(st', w', m);
      assert SwappedSetting(st') == st && Swapped(w') == w;
  }

  // ---- something can always be done ------------------------------------------------------

  /** Both devices have read all there is. */
  ghost predicate AllRead(w: World) {
    w.aCtl == |w.b.out| && w.bCtl == |w.a.out| && w.aBulk == |w.b.bulkOut| && w.bBulk == |w.a.bulkOut|
  }

  ghost predicate Busy(w: World) {
    w.a.phase == Transferring && (w.a.outgoing.Some? || w.a.toServe != [])
  }

  /** With everything read and ingested, a device with work left can serve. */
  lemma ServeEnabled(st: Setting, w: World)
    requires Inv(st, w) && AllRead(w) && w.b.receiver.ready == [] && Busy(w) && CursorsFit(w) && !LostFromA(st, w)
    ensures st.chunkBytes > 0 && StepA(st, w, ServeMove).Some?
  {
    hide Inv, Link, Lost, SlicesOf;
    InvCursors(st, w);
    if w.a.outgoing.Some? {
      OutgoingFits(st, w);
      assert w.a.out[|w.a.out|..] == [] && w.b.out[|w.b.out|..] == [];
      QuietMeansSenderCanGo(st.a, st.chunkBytes, SenderOf(w.a, w.bCtl, w.bBulk), ReceiverOf(w.b, w.aCtl));
    }
  }

  /** The history entry that a stored row stands for. */
  function EntryOf(t: Tables, id: RevisionId): HistoryEntry
    requires id in t.rows
  {
    HistoryEntry(id, t.rows[id].hash, t.rows[id].sizeBytes, ParentsOf(t, id))
  }

  /** The order in which the rows of a vault come out; some order exists. */
  lemma {:induction false} HistoryExists(t: Tables, v: VaultId, ids: set<RevisionId>) returns (es: seq<HistoryEntry>)
    requires forall id :: id in ids ==> id in t.rows && t.rows[id].vaultId == v
    ensures forall i, j :: 0 <= i < j < |es| ==> es[i].revisionId != es[j].revisionId
    ensures forall i :: 0 <= i < |es| ==> es[i].revisionId in ids
    ensures forall i :: 0 <= i < |es| ==> es[i] == EntryOf(t, es[i].revisionId)
    ensures forall id :: id in ids ==> exists i :: 0 <= i < |es| && es[i].revisionId == id
    decreases ids
  {
    if id :| id in ids {
      var rest := HistoryExists(t, v, ids - {id});
      es := rest + [EntryOf(t, id)];
      forall x | x in ids
        ensures exists i :: 0 <= i < |es| && es[i].revisionId == x
      {
        if x == id {
          assert es[|rest|].revisionId == x;
        } else {
          assert x in ids - {id};
          var i :| 0 <= i < |rest| && rest[i].revisionId == x;
          assert es[i].revisionId == x;
        }
      }
    } else {
      es := [];
    }
  }

  lemma SomeHistory(t: Tables, v: VaultId) returns (es: seq<HistoryEntry>)
    ensures IsHistory(t, v, es)
  {
    var ids := set id | id in t.rows && t.rows[id].vaultId == v;
    es := HistoryExists(t, v, ids);
    forall id | id in t.rows && t.rows[id].vaultId == v
      ensures exists i :: 0 <= i < |es| && es[i].revisionId == id
    {
      assert id in ids;
    }
  }

  /** The device that is not ahead finds its next opening message in the inbox. */
  lemma OpeningCanGo(st: Setting, w: World) returns (c: Choice)
    requires Inv(st, w) && 1 <= Rank(w.a.phase) <= 5 && Rank(w.b.phase) >= Rank(w.a.phase) && w.aCtl == |w.b.out|
    ensures st.chunkBytes > 0 && StepA(st, w, RunMove(c)).Some?
  {
    hide Inv, Link, Consume, FirstAwaited, OutScript, InboxHolds, CompletionFacts;
    InvCursors(st, w);
    InvRank(st, w);
    InvOpening(st, w);
    NextAwaited(w.a, st.b, st.v, w.b, w.aCtl);
    c := ConsumeCanGo(st, w, Popped(w.a), w.b.out[Rank(w.a.phase) - 1]);
  }

  lemma InvOpening(st: Setting, w: World)
    requires Inv(st, w)
    ensures InboxHolds(w.a, w.b.out, w.aCtl) && OutScript(st.b, st.v, w.b) && |w.b.out| >= Min(Rank(w.b.phase), 5)
    ensures Rank(w.a.phase) >= 4 ==> w.a.vaultId == Some(st.v)
    ensures Rank(w.a.phase) == 4 && |w.b.out| >= 4 && w.b.out[3].HistorySummary? && Rank(w.b.phase) >= 4 ==>
      IsHistory(st.b.tables, st.v, w.b.out[3].revisions)
    ensures Sound(st.sha, st.b)
  {
    hide Link, StoreFacts, AfterWants, ExpectedFacts, HeadHeard, CompletionFacts, Sound, RowsAgree, VaultClosed, SizeFaithful;
    hide SummaryFits, IsHistory;
  }

  /** Whatever the awaited message is, some choice of the environment lets the run consume it. */
  lemma ConsumeCanGo(st: Setting, w: World, x: Side, m: Message) returns (c: Choice)
    requires Awaited(x.phase, m) && x == Popped(w.a) && st.chunkBytes > 0
    requires x.phase == AwaitHistory ==>
      x.vaultId == Some(st.v) && IsHistory(st.b.tables, st.v, m.revisions) && Sound(st.sha, st.b)
    ensures c.decodes && c.trusted && Consume(st.sha, x, m, c).Some?
  {
    hide IsHistory, AcceptableHistory, IsWantList, VaultGraph, HistoryGraph, Replay, AdoptVault, SummaryOf, Sound;
    c := Choice(true, true, "", [], []);
    if x.phase == AwaitSummary {
      var v := if x.vaultId.Some? then x.vaultId.value else m.vaultId;
      var disk := if x.vaultId.Some? then x.disk else Replay(st.sha, x.disk, AdoptVault(x.disk.tables, v, m.vaultName).steps);
      var es := SomeHistory(disk.tables, v);
      c := c.(history := es);
    } else if x.phase == AwaitHistory && x.remoteHead.Some? {
      HonestHistoryAccepted(st.sha, st.b, st.v, m.revisions);
      HistoryIsAcyclic(m.revisions);
      var wanted := WantListExists(HistoryGraph(m.revisions), x.remoteHead.value, VaultGraph(x.disk.tables, st.v).Keys);
      c := c.(wanted := wanted);
    }
  }

  /** From the first phase the run can always start. */
  lemma StartCanGo(st: Setting, w: World) returns (c: Choice)
    requires st.chunkBytes > 0 && w.a.phase == Unstarted
    ensures StepA(st, w, RunMove(c)).Some?
  {
    c := Choice(true, true, "", [], []);
  }

  /** With nothing left to serve or to receive, a device can complete; having heard the other complete, it can finish. */
  lemma ClosingCanGo(st: Setting, w: World) returns (c: Choice)
    requires Inv(st, w) && AllRead(w) && w.a.receiver.ready == [] && 6 <= Rank(w.a.phase) <= 7
    requires !Busy(w) && !Busy(Swapped(w)) && Rank(w.b.phase) >= Rank(w.a.phase)
    ensures st.chunkBytes > 0 && StepA(st, w, RunMove(c)).Some?
  {
    hide Inv, Link, OutScript, InboxHolds;
    c := Choice(true, true, "", [], []);
    InvCursors(st, w);
    InvCompletion(st, w);
    InvVault(st, w);
    if w.a.phase == Transferring {
      PeerServed(st, w);
    } else {
      assert w.b.out[|w.b.out|..] == [];
    }
  }

  lemma InvVault(st: Setting, w: World)
    requires Inv(st, w) && Rank(w.a.phase) >= 4
    ensures w.a.vaultId.Some?
  {
    hide Link, StoreFacts, AfterWants, ExpectedFacts, HeadHeard, CompletionFacts, GoodSetting, OutScript, InboxHolds;
  }

  lemma PeerServed(st: Setting, w: World)
    requires Inv(st, w) && Rank(w.b.phase) >= 6 && !Busy(Swapped(w))
    ensures w.a.expected == {}
  {
    hide Inv, Link, CompletionFacts, HelloOk;
    ReceivedSoFar(st, w);
    InvCompletion(st, w);
    InvRank(st, w);
    InvSwaps(st, w);
    InvCompletion(SwappedSetting(st), Swapped(w));
    assert w.a.wanted[|w.a.received|..] == [] ==> SeqToSet(w.a.wanted[|w.a.received|..]) == {};
  }

  // ---- no deadlock -------------------------------------------------------------------------

  ghost predicate CanStep(st: Setting, w: World, who: Who, m: Move)
    requires st.chunkBytes > 0
  {
    Step(st, w, who, m).Some? && !Drops(w, who, m)
  }

  /** Something unread or not yet ingested by A can be read or ingested, without a drop. */
  lemma CanRead(st: Setting, w: World) returns (m: Move)
    requires Inv(st, w) && CursorsFit(w)
    requires w.a.phase != Unstarted && (w.aCtl < |w.b.out| || w.aBulk < |w.b.bulkOut| || w.a.receiver.ready != [])
    ensures st.chunkBytes > 0 && StepA(st, w, m).Some? && !DropsA(w, m)
  {
    hide Inv, Link, OnControl, OnBulk, IngestStep;
    InvCursors(st, w);
    if w.aCtl < |w.b.out| {
      m := ControlMove;
    } else if w.aBulk < |w.b.bulkOut| {
      assert w.b.out[|w.b.out|..] == [];
      FrameOrHeader(st.b, st.chunkBytes, SenderOf(w.b, w.aCtl, w.aBulk), ReceiverOf(w.a, w.bCtl));
      m := BulkMove;
    } else {
      IngestCanGo(st, w);
      m := IngestMove;
    }
  }

  lemma IngestCanGo(st: Setting, w: World)
    requires Inv(st, w) && w.a.receiver.ready != []
    ensures IngestStep(st.sha, w.a).Some?
  {
    hide Inv, Link, IngestReceivedRevision, Replay, Notify, Reject;
    InvCursors(st, w);
    TransferMeansOutstanding(st.b, st.chunkBytes, SenderOf(w.b, w.aCtl, w.aBulk), ReceiverOf(w.a, w.bCtl));
    ServingNeedsWants(st, w);
    InvRank(st, w);
  }

  /** A has read and ingested everything and is not ahead of B: one of the two can go on. */
  lemma QuietCanGo(st: Setting, w: World) returns (who: Who, m: Move)
    requires Inv(st, w) && AllRead(w) && w.a.receiver.ready == [] && w.b.receiver.ready == []
    requires CursorsFit(w) && !AnyLost(st, w) && Rank(w.a.phase) <= Rank(w.b.phase) && w.a.phase != Finished
    ensures st.chunkBytes > 0 && CanStep(st, w, who, m)
  {
    hide Inv, Link, StepA, Lost;
    InvCursors(st, w);
    InvRank(st, w);
    if Busy(w) {
      ServeEnabled(st, w);
      who, m := DeviceA, ServeMove;
    } else if Busy(Swapped(w)) {
      InvSwaps(st, w);
      ServeEnabled(SwappedSetting(st), Swapped(w));
      who, m := DeviceB, ServeMove;
    } else {
      var c: Choice;
      if w.a.phase == Unstarted {
        c := StartCanGo(st, w);
      } else if Rank(w.a.phase) <= 5 {
        c := OpeningCanGo(st, w);
      } else {
        c := ClosingCanGo(st, w);
      }
      who, m := DeviceA, RunMove(c);
    }
  }

  lemma SwapStep(st: Setting, w: World, who: Who, m: Move)
    requires st.chunkBytes > 0
    ensures CanStep(SwappedSetting(st), Swapped(w), who, m)
       <==> CanStep(st, w, if who == DeviceA then DeviceB else DeviceA, m)
  {
    hide StepA, DropsA;
    assert SwappedSetting(SwappedSetting(st)) == st && Swapped(Swapped(w)) == w;
  }

  /** A device that has not started can. */
  lemma FirstCanStart(st: Setting, w: World) returns (who: Who, m: Move)
    requires st.chunkBytes > 0 && (w.a.phase == Unstarted || w.b.phase == Unstarted)
    ensures CanStep(st, w, who, m)
  {
    hide StepA;
    if w.a.phase == Unstarted {
      var c := StartCanGo(st, w);
      who, m := DeviceA, RunMove(c);
    } else {
      var c := StartCanGo(SwappedSetting(st), Swapped(w));
      who, m := DeviceB, RunMove(c);
    }
  }

  /** No reachable world is stuck: unless a frame was lost, some step that loses none is possible until both are finished. */
  lemma NoDeadlock(st: Setting, w: World) returns (who: Who, m: Move)
    requires Inv(st, w) && CursorsFit(w) && !AnyLost(st, w)
    requires w.a.phase != Finished || w.b.phase != Finished
    ensures st.chunkBytes > 0 && CanStep(st, w, who, m)
  {
    hide Inv, Link, StepA, LostFromA, DropsA;
    InvCursors(st, w);
    InvRank(st, w);
    var st', w' := SwappedSetting(st), Swapped(w);
    InvSwaps(st, w);
    assert SwappedSetting(st') == st && Swapped(w') == w;
    if w.a.phase == Unstarted || w.b.phase == Unstarted {
      who, m := FirstCanStart(st, w);
    } else if w.aCtl < |w.b.out| || w.aBulk < |w.b.bulkOut| || w.a.receiver.ready != [] {
      m := CanRead(st, w);
      who := DeviceA;
    } else if w.bCtl < |w.a.out| || w.bBulk < |w.a.bulkOut| || w.b.receiver.ready != [] {
      m := CanRead(st', w');
      who := DeviceB;
    } else if Rank(w.a.phase) <= Rank(w.b.phase) {
      who, m := QuietCanGo(st, w);
    } else {
      var who';
      who', m := QuietCanGo(st', w');
      SwapStep(st, w, who', m);
      who := if who' == DeviceA then DeviceB else DeviceA;
    }
  }
}
