/**
 What one side of a session has heard and said, whatever its peer sends: how the opening was checked,
 what was announced, how every transfer was answered, and when the waiting ends.
 */
module Conversation {
  import opened Basics
  import opened Reachability
  import opened RemoteHistory
  import opened Framing
  import opened Chunks
  import opened Store
  import opened Engine
  import opened EngineRuns
  import opened Messages
  import opened Inbound
  import opened Session
  import opened SingleSession

  // ---- what was heard --------------------------------------------------------------

  ghost predicate Heard(es: seq<Event>, n: nat, m: Message)
    requires n <= |es|
  {
    exists k :: 0 <= k < n && es[k] == ControlIn(m)
  }

  lemma HeardStays(es: seq<Event>, n: nat)
    requires n < |es|
    ensures forall m :: Heard(es, n, m) ==> Heard(es, n + 1, m)
    ensures es[n].ControlIn? ==> Heard(es, n + 1, es[n].message)
  {
    forall m | Heard(es, n, m)
      ensures Heard(es, n + 1, m)
    {
      var k :| 0 <= k < n && es[k] == ControlIn(m);
      assert es[k] == ControlIn(m);
    }
    if es[n].ControlIn? {
      assert es[n] == ControlIn(es[n].message);
    }
  }

  /** Whatever waits to be awaited was heard. */
  ghost predicate InboxHeard(s: Side, es: seq<Event>, n: nat)
    requires n <= |es|
  {
    forall i :: 0 <= i < |s.inbox| ==> Heard(es, n, s.inbox[i])
  }

  /** A device said hello in this protocol version, which is one. */
  ghost predicate Greeted(es: seq<Event>, n: nat, device: DeviceId)
    requires n <= |es|
  {
    exists m :: Heard(es, n, m) && m.Hello? && m.protocolVersion == 1 && m.deviceId == device
  }

  /** Past the hello the peer has greeted; whoever is known is the one who did. */
  ghost predicate HelloChecked(s: Side, es: seq<Event>, n: nat)
    requires n <= |es|
  {
    && (s.helloFrom.Some? ==> Greeted(es, n, s.helloFrom.value))
    && (s.remote.Some? ==> s.remote == s.helloFrom)
    && (s.phase !in {Unstarted, AwaitHello, Failed} ==> s.helloFrom.Some?)
    && (s.phase !in {Unstarted, AwaitHello, AwaitAuth, Failed} ==> s.remote.Some?)
    && (s.phase in {Unstarted, AwaitHello, AwaitAuth} ==> s.remote.None?)
  }

  predicate PastSummary(p: Phase) {
    p in {AwaitHistory, AwaitWants, Transferring, AwaitComplete, Finished}
  }

  /**
   The summary `m` fits a device whose vault was `own`: the peer tracks the same vault or none; or the
   device had none, and took the peer's under its id and, if it was new, its name.
   */
  ghost predicate Agreed(own: Option<VaultId>, d: Tables, s: Side, m: Message) {
    && m.VaultSummary? && s.remoteHead == m.headRevisionId
    && (own.Some? ==> s.vaultId == own && (m.vaultId == own.value || m.vaultId == VaultId("\0none")))
    && (own.None? ==>
          && m.vaultId != VaultId("\0none") && s.vaultId == Some(m.vaultId)
          && (m.vaultId !in d.vaults ==>
                m.vaultId in s.disk.tables.vaults && s.disk.tables.vaults[m.vaultId] == Vault(m.vaultName, None)))
  }

  ghost predicate VaultChecked(own: Option<VaultId>, d: Disk, s: Side, es: seq<Event>, n: nat)
    requires n <= |es|
  {
    && (PastSummary(s.phase) ==> exists m :: Heard(es, n, m) && Agreed(own, d.tables, s, m))
    && (!PastSummary(s.phase) && s.phase != Failed ==> s.vaultId == own && s.disk.tables.vaults == d.tables.vaults)
    && (s.remote.None? ==> s.disk == d)
  }

  /** Past the history exchange: the graph is that of a history that was heard, and it names each revision once. */
  ghost predicate HistoryChecked(s: Side, es: seq<Event>, n: nat)
    requires n <= |es|
  {
    s.phase in {AwaitWants, Transferring, AwaitComplete, Finished} ==>
      exists m :: Heard(es, n, m) && m.HistorySummary? && s.remoteGraph == HistoryGraph(m.revisions)
        && forall i, j :: 0 <= i < j < |m.revisions| ==> m.revisions[i].revisionId != m.revisions[j].revisionId
  }

  ghost predicate IsRest(rest: seq<RevisionId>, all: seq<RevisionId>) {
    |rest| <= |all| && rest == all[|all| - |rest|..]
  }

  /** What is still to be served is the rest of a want list that was heard. */
  ghost predicate ServesWants(s: Side, es: seq<Event>, n: nat)
    requires n <= |es|
  {
    s.phase in {Transferring, AwaitComplete, Finished} ==>
      exists m :: Heard(es, n, m) && m.WantRevisions? && IsRest(s.toServe, m.revisionIds)
  }

  /**
   A side completes with nothing left to serve, and with nothing expected unless the peer has completed;
   it finishes only after the peer said that it has.
   */
  ghost predicate Completes(s: Side, es: seq<Event>, n: nat)
    requires n <= |es|
  {
    && (s.phase in {AwaitComplete, Finished} ==> s.toServe == [] && s.outgoing.None? && s.drained)
    && (s.phase !in {Transferring, AwaitComplete, Finished, Failed} ==> !s.drained)
    && (s.drained ==> s.expected == {} || s.peerCompleted)
    && (s.phase == Finished ==> s.peerCompleted)
    && (s.peerCompleted ==> exists m :: Heard(es, n, m) && m.SyncComplete?)
  }

  ghost predicate OpenedWell(own: Option<VaultId>, d: Disk, s: Side, es: seq<Event>, n: nat)
    requires n <= |es|
  {
    InboxHeard(s, es, n) && HelloChecked(s, es, n) && VaultChecked(own, d, s, es, n) && HistoryChecked(s, es, n)
    && ServesWants(s, es, n) && Completes(s, es, n)
  }

  // ---- handlers leave the opening alone --------------------------------------------

  /** What the checks of the opening look at, apart from the inbox and the end of the session. */
  ghost predicate SameOpening(s: Side, s': Side) {
    && s'.hello == s.hello && s'.helloFrom == s.helloFrom && s'.remote == s.remote && s'.vaultId == s.vaultId
    && s'.remoteHead == s.remoteHead && s'.remoteGraph == s.remoteGraph && s'.wanted == s.wanted
    && s'.disk.tables.vaults == s.disk.tables.vaults && (s.remote.None? ==> s'.disk == s.disk)
  }

  /** Draining: what a handler may do about it. */
  ghost predicate DrainsRightly(s: Side, s': Side) {
    && s'.expected <= s.expected && (s.drained ==> s'.drained) && (s.peerCompleted ==> s'.peerCompleted)
    && (s'.drained && !s.drained ==> s.phase == Transferring && (s'.expected == {} || s'.peerCompleted))
  }

  lemma {:induction false} RejectAllDrains(s: Side, ids: seq<RevisionId>)
    ensures var s' := RejectAll(s, ids);
      s' == s.(out := s'.out, expected := s'.expected, drained := s'.drained) && DrainsRightly(s, s')
  {
    if |ids| > 0 {
      RejectAllDrains(s, ids[..|ids| - 1]);
    }
  }

  lemma ControlOpening(s: Side, m: Message)
    ensures var s' := OnControl(s, m);
      && SameOpening(s, s') && s'.phase == s.phase && s'.toServe == s.toServe && DrainsRightly(s, s')
      && (s'.inbox == s.inbox || s'.inbox == s.inbox + [m]) && (s'.peerCompleted ==> s.peerCompleted || m.SyncComplete?)
      && (s.outgoing.None? ==> s'.outgoing.None?)
  {
    hide OnHeader, RejectAll;
    if m.RevisionHeader? {
      var r := OnHeader(s.receiver, m.header);
      RejectAllDrains(s.(receiver := r.(refused := [])), r.refused);
    }
  }

  lemma BulkOpening(s: Side, f: ChunkFrame)
    ensures var s' := OnBulk(s, f);
      && SameOpening(s, s') && s'.phase == s.phase && s'.toServe == s.toServe && DrainsRightly(s, s')
      && s'.inbox == s.inbox && s'.peerCompleted == s.peerCompleted && s'.outgoing == s.outgoing
  {
    hide OnFrame, RejectAll;
    var r := OnFrame(s.receiver, f);
    RejectAllDrains(s.(receiver := r.(refused := [])), r.refused);
  }

  lemma IngestOpening(sha: Digest, s: Side)
    requires IngestStep(sha, s).Some? && Sound(sha, s.disk)
    ensures var s' := IngestStep(sha, s).value;
      && SameOpening(s, s') && s'.phase == s.phase && s'.toServe == s.toServe && DrainsRightly(s, s')
      && s'.inbox == s.inbox && s'.peerCompleted == s.peerCompleted && s'.outgoing == s.outgoing
  {
    hide Replay, IngestReceivedRevision, Sound, IngestStep, DrainsRightly, InputOf;
    IngestShape(sha, s);
    IngestVaults(sha, s.disk, InputOf(s, s.receiver.ready[0]));
  }

  /** Taking in a revision, apart from what it does to the store. */
  lemma IngestShape(sha: Digest, s: Side)
    requires IngestStep(sha, s).Some?
    ensures s.remote.Some? && s.receiver.ready != []
    ensures var s' := IngestStep(sha, s).value;
      && s' == s.(receiver := s.receiver.(ready := s.receiver.ready[1..]), disk := s'.disk, out := s'.out, expected := s'.expected,
                  received := s'.received, drained := s'.drained)
      && s'.disk == Replay(sha, s.disk, IngestReceivedRevision(sha, s.disk.tables, InputOf(s, s.receiver.ready[0])).steps)
      && DrainsRightly(s, s')
  {
    hide Replay, IngestReceivedRevision, InputOf;
  }

  lemma {:induction false} IngestVaults(sha: Digest, d: Disk, i: ReceivedInput)
    requires Sound(sha, d)
    ensures Replay(sha, d, IngestReceivedRevision(sha, d.tables, i).steps).tables.vaults == d.tables.vaults
  {
    hide Sound, Replay, IngestReceivedRevision, HistoryKept, RowOf;
    IngestTables(sha, d, i);
    if IngestReceivedRevision(sha, d.tables, i).outcome.Stored? {
      IngestIsVerbatim(sha, d, i);
    }
  }

  lemma ServeOpening(chunkBytes: nat, s: Side)
    requires chunkBytes > 0 && ServeStep(chunkBytes, s).Some?
    ensures var s' := ServeStep(chunkBytes, s).value;
      && SameOpening(s, s') && s.phase == Transferring && (s'.phase == s.phase || s'.phase == Failed)
      && IsRest(s'.toServe, s.toServe) && DrainsRightly(s, s') && s'.inbox == s.inbox && s'.peerCompleted == s.peerCompleted
  {
    hide ServeStep;
    ServeTouches(chunkBytes, s);
  }

  lemma ServeTouches(chunkBytes: nat, s: Side)
    requires chunkBytes > 0 && ServeStep(chunkBytes, s).Some?
    ensures var s' := ServeStep(chunkBytes, s).value;
      && s' == s.(phase := s'.phase, toServe := s'.toServe, out := s'.out, transferSeq := s'.transferSeq, outgoing := s'.outgoing,
                  bulkOut := s'.bulkOut, sent := s'.sent)
      && s.phase == Transferring && (s'.phase == s.phase || s'.phase == Failed)
      && (s'.toServe == s.toServe || (s.toServe != [] && s'.toServe == s.toServe[1..]))
  {
    hide ServeStep;
    if s.outgoing.None? {
      AnnounceTouches(chunkBytes, s);
    } else {
      PushTouches(chunkBytes, s);
    }
  }

  lemma AnnounceTouches(chunkBytes: nat, s: Side)
    requires chunkBytes > 0 && ServeStep(chunkBytes, s).Some? && s.outgoing.None?
    ensures var s' := ServeStep(chunkBytes, s).value;
      && s' == s.(phase := s'.phase, toServe := s'.toServe, out := s'.out, transferSeq := s'.transferSeq, outgoing := s'.outgoing)
      && s.phase == Transferring && (s'.phase == s.phase || s'.phase == Failed)
      && s.toServe != [] && (s'.toServe == s.toServe || s'.toServe == s.toServe[1..])
  {
    hide SlicesOf, HeaderFor, Send;
    SendTouches(s);
  }

  lemma PushTouches(chunkBytes: nat, s: Side)
    requires chunkBytes > 0 && ServeStep(chunkBytes, s).Some? && s.outgoing.Some?
    ensures var s' := ServeStep(chunkBytes, s).value;
      && s' == s.(outgoing := s'.outgoing, bulkOut := s'.bulkOut, sent := s'.sent) && s.phase == Transferring
  {
    hide SlicesOf, HeaderFor, Send;
  }

  lemma SendTouches(s: Side)
    ensures forall m :: Send(s, m) == s.(out := s.out + [m])
  {
  }

  /** An event that leaves the opening alone. */
  ghost predicate LeavesOpening(s: Side, s': Side, e: Event) {
    && SameOpening(s, s') && (s'.phase == s.phase || (s.phase == Transferring && s'.phase == Failed))
    && IsRest(s'.toServe, s.toServe) && DrainsRightly(s, s')
    && (s'.inbox == s.inbox || (e.ControlIn? && s'.inbox == s.inbox + [e.message]))
    && (s'.peerCompleted ==> s.peerCompleted || (e.ControlIn? && e.message.SyncComplete?))
    && (s.phase in {AwaitComplete, Finished} && s.outgoing.None? ==> s'.outgoing.None?)
  }

  lemma WholeIsRest(xs: seq<RevisionId>)
    ensures IsRest(xs, xs)
  {
  }

  lemma HandlerLeavesOpening(sha: Digest, chunkBytes: nat, s: Side, e: Event)
    requires chunkBytes > 0 && AfterEvent(sha, chunkBytes, s, e).Some? && !e.RunGoes? && Sound(sha, s.disk)
    ensures LeavesOpening(s, AfterEvent(sha, chunkBytes, s, e).value, e)
  {
    hide OnControl, OnBulk, ServeStep, IngestStep, SameOpening, DrainsRightly, Sound, IsRest;
    WholeIsRest(s.toServe);
    match e
    case ControlIn(m) => ControlOpening(s, m);
    case BulkIn(f) => BulkOpening(s, f);
    case Serves => ServeOpening(chunkBytes, s);
    case Ingests => IngestOpening(sha, s);
  }

  lemma RestOfRest(a: seq<RevisionId>, b: seq<RevisionId>, c: seq<RevisionId>)
    requires IsRest(a, b) && IsRest(b, c)
    ensures IsRest(a, c)
  {
  }

  lemma LeavesKeeps(own: Option<VaultId>, d: Disk, s: Side, s': Side, es: seq<Event>, n: nat)
    requires n < |es| && OpenedWell(own, d, s, es, n) && LeavesOpening(s, s', es[n])
    ensures OpenedWell(own, d, s', es, n + 1)
  {
    hide Heard, Greeted;
    HeardStays(es, n);
    GreetedStays(es, n);
    LeavesVault(own, d, s, s', es, n);
    LeavesLists(s, s', es, n);
    hide VaultChecked, HistoryChecked, ServesWants;
    if s'.peerCompleted && !s.peerCompleted {
      assert Heard(es, n + 1, es[n].message) && es[n].message.SyncComplete?;
    }
  }

  lemma GreetedStays(es: seq<Event>, n: nat)
    requires n < |es|
    ensures forall device :: Greeted(es, n, device) ==> Greeted(es, n + 1, device)
  {
    hide Heard;
    HeardStays(es, n);
  }

  lemma LeavesVault(own: Option<VaultId>, d: Disk, s: Side, s': Side, es: seq<Event>, n: nat)
    requires n < |es| && VaultChecked(own, d, s, es, n) && LeavesOpening(s, s', es[n])
    ensures VaultChecked(own, d, s', es, n + 1)
  {
    hide Heard, IsRest, DrainsRightly;
    HeardStays(es, n);
    if PastSummary(s'.phase) {
      var m :| Heard(es, n, m) && Agreed(own, d.tables, s, m);
      assert Heard(es, n + 1, m) && Agreed(own, d.tables, s', m);
    }
  }

  lemma LeavesLists(s: Side, s': Side, es: seq<Event>, n: nat)
    requires n < |es| && HistoryChecked(s, es, n) && ServesWants(s, es, n) && LeavesOpening(s, s', es[n])
    ensures HistoryChecked(s', es, n + 1) && ServesWants(s', es, n + 1)
  {
    hide Heard, IsRest, DrainsRightly;
    HeardStays(es, n);
    if s'.phase in {AwaitWants, Transferring, AwaitComplete, Finished} {
      var m :| Heard(es, n, m) && m.HistorySummary? && s.remoteGraph == HistoryGraph(m.revisions)
        && forall i, j :: 0 <= i < j < |m.revisions| ==> m.revisions[i].revisionId != m.revisions[j].revisionId;
      assert Heard(es, n + 1, m);
    }
    if s'.phase in {Transferring, AwaitComplete, Finished} {
      var m :| Heard(es, n, m) && m.WantRevisions? && IsRest(s.toServe, m.revisionIds);
      RestOfRest(s'.toServe, s.toServe, m.revisionIds);
    }
  }

  // ---- the run checks before it goes on --------------------------------------------

  lemma HelloOpens(own: Option<VaultId>, d: Disk, s: Side, m: Message, c: Choice, es: seq<Event>, n: nat)
    requires n <= |es| && OpenedWell(own, d, s, es, n) && s.phase == AwaitHello && m.Hello? && Heard(es, n, m)
    ensures OpenedWell(own, d, ConsumeHello(s, m, c), es, n)
  {
    hide Heard, HistoryGraph, IsRest, Agreed;
    if m.protocolVersion == PROTOCOL_VERSION {
      assert Greeted(es, n, m.deviceId);
    }
  }

  lemma AuthOpens(own: Option<VaultId>, d: Disk, s: Side, c: Choice, es: seq<Event>, n: nat)
    requires n <= |es| && OpenedWell(own, d, s, es, n) && s.phase == AwaitAuth
    ensures OpenedWell(own, d, ConsumeAuth(s, c), es, n)
  {
    hide Heard, HistoryGraph, IsRest, Agreed, Greeted, SummaryOf;
  }

  lemma SummaryOpens(own: Option<VaultId>, d: Disk, sha: Digest, s: Side, m: Message, c: Choice, es: seq<Event>, n: nat)
    requires n <= |es| && OpenedWell(own, d, s, es, n) && s.phase == AwaitSummary && m.VaultSummary? && Heard(es, n, m)
    requires ConsumeSummary(sha, s, m, c).Some?
    ensures OpenedWell(own, d, ConsumeSummary(sha, s, m, c).value, es, n)
  {
    hide Heard, HistoryGraph, IsRest, Greeted, IsHistory, Replay, AdoptVault;
    var s' := ConsumeSummary(sha, s, m, c).value;
    AdoptedVaults(sha, s.disk, m.vaultId, m.vaultName);
    if s'.phase == AwaitHistory {
      assert Agreed(own, d.tables, s', m);
    }
  }

  lemma {:induction false} AdoptedVaults(sha: Digest, d: Disk, v: VaultId, name: string)
    ensures var d' := Replay(sha, d, AdoptVault(d.tables, v, name).steps);
      v !in d.tables.vaults ==> v in d'.tables.vaults && d'.tables.vaults[v] == Vault(name, None)
  {
    var u := UpsertVault(v, Vault(name, None));
    OneStep(sha, d, Commit([u]));
    SyncEngine.EmptyRun(d.tables);
    RunStmtsAppend(d.tables, [], u);
    assert [] + [u] == [u];
  }

  lemma HistoryOpens(own: Option<VaultId>, d: Disk, s: Side, m: Message, c: Choice, es: seq<Event>, n: nat)
    requires n <= |es| && OpenedWell(own, d, s, es, n) && s.phase == AwaitHistory && m.HistorySummary? && Heard(es, n, m)
    requires s.vaultId.Some? && ConsumeHistory(s, m, c).Some?
    ensures OpenedWell(own, d, ConsumeHistory(s, m, c).value, es, n)
  {
    hide Heard, HistoryGraph, IsRest, Greeted, IsWantList, VaultGraph, Acyclic;
    var s' := ConsumeHistory(s, m, c).value;
    var w :| Heard(es, n, w) && Agreed(own, d.tables, s, w);
    if s'.phase == AwaitWants {
      assert Agreed(own, d.tables, s', w);
    }
  }

  lemma WantsOpen(own: Option<VaultId>, d: Disk, s: Side, m: Message, es: seq<Event>, n: nat)
    requires n <= |es| && OpenedWell(own, d, s, es, n) && s.phase == AwaitWants && m.WantRevisions? && Heard(es, n, m)
    ensures OpenedWell(own, d, ConsumeWants(s, m), es, n)
  {
    hide Heard, HistoryGraph, Greeted;
    var s' := ConsumeWants(s, m);
    var w :| Heard(es, n, w) && Agreed(own, d.tables, s, w);
    assert Agreed(own, d.tables, s', w);
    assert IsRest(s'.toServe, m.revisionIds);
  }

  lemma ConsumeOpens(own: Option<VaultId>, d: Disk, sha: Digest, s: Side, m: Message, c: Choice, es: seq<Event>, n: nat)
    requires n <= |es| && OpenedWell(own, d, s, es, n) && Awaited(s.phase, m) && Heard(es, n, m) && Consume(sha, s, m, c).Some?
    ensures OpenedWell(own, d, Consume(sha, s, m, c).value, es, n)
  {
    hide OpenedWell, Heard, ConsumeHello, ConsumeAuth, ConsumeSummary, ConsumeHistory, ConsumeWants;
    match s.phase
    case AwaitHello => HelloOpens(own, d, s, m, c, es, n);
    case AwaitAuth => AuthOpens(own, d, s, c, es, n);
    case AwaitSummary => SummaryOpens(own, d, sha, s, m, c, es, n);
    case AwaitHistory =>
      if s.vaultId.None? {
        FailsWell(own, d, s, es, n);
      } else {
        HistoryOpens(own, d, s, m, c, es, n);
      }
    case AwaitWants => WantsOpen(own, d, s, m, es, n);
  }

  lemma FailsWell(own: Option<VaultId>, d: Disk, s: Side, es: seq<Event>, n: nat)
    requires n <= |es| && OpenedWell(own, d, s, es, n)
    ensures OpenedWell(own, d, Fail(s), es, n)
  {
    hide Heard, HistoryGraph, IsRest, Greeted, Agreed;
  }

  lemma PoppedWell(own: Option<VaultId>, d: Disk, s: Side, i: nat, es: seq<Event>, n: nat)
    requires n <= |es| && OpenedWell(own, d, s, es, n) && i < |s.inbox|
    ensures OpenedWell(own, d, s.(inbox := s.inbox[..i] + s.inbox[i + 1..]), es, n) && Heard(es, n, s.inbox[i])
  {
    hide Heard, HistoryGraph, IsRest, Greeted;
    var popped := s.(inbox := s.inbox[..i] + s.inbox[i + 1..]);
    forall k | 0 <= k < |popped.inbox|
      ensures Heard(es, n, popped.inbox[k])
    {
      assert popped.inbox[k] == if k < i then s.inbox[k] else s.inbox[k + 1];
    }
    if PastSummary(s.phase) {
      var m :| Heard(es, n, m) && Agreed(own, d.tables, s, m);
      assert Agreed(own, d.tables, popped, m);
    }
  }

  /** The pieces of the run that await nothing. */
  lemma ClosingWell(own: Option<VaultId>, d: Disk, s: Side, s': Side, es: seq<Event>, n: nat)
    requires n <= |es| && OpenedWell(own, d, s, es, n) && s' == s.(phase := s'.phase, out := s'.out)
    requires (s.phase == Unstarted && s'.phase == AwaitHello)
          || (s.phase == Transferring && s'.phase == AwaitComplete && s.toServe == [] && s.outgoing.None? && s.drained)
          || (s.phase == AwaitComplete && s'.phase == Finished && s.peerCompleted)
    ensures OpenedWell(own, d, s', es, n)
  {
    hide Heard, HistoryGraph, IsRest, Greeted;
    if PastSummary(s.phase) {
      var m :| Heard(es, n, m) && Agreed(own, d.tables, s, m);
      assert Agreed(own, d.tables, s', m);
    }
  }

  lemma RunOpens(own: Option<VaultId>, d: Disk, sha: Digest, s: Side, c: Choice, es: seq<Event>, n: nat)
    requires n <= |es| && OpenedWell(own, d, s, es, n) && RunStep(sha, s, c).Some?
    ensures OpenedWell(own, d, RunStep(sha, s, c).value, es, n)
  {
    hide OpenedWell, Heard, Consume, FirstAwaited;
    var s' := RunStep(sha, s, c).value;
    if s.phase in {Unstarted, Transferring, AwaitComplete} {
      ClosingWell(own, d, s, s', es, n);
    } else if s.inboxFailed {
      FailsWell(own, d, s, es, n);
    } else {
      var i := FirstAwaited(s.phase, s.inbox).value;
      PoppedWell(own, d, s, i, es, n);
      ConsumeOpens(own, d, sha, s.(inbox := s.inbox[..i] + s.inbox[i + 1..]), s.inbox[i], c, es, n);
    }
  }

  lemma LaterWell(own: Option<VaultId>, d: Disk, s: Side, es: seq<Event>, n: nat)
    requires n < |es| && OpenedWell(own, d, s, es, n)
    ensures OpenedWell(own, d, s, es, n + 1)
  {
    hide OpenedWell;
    WholeIsRest(s.toServe);
    LeavesKeeps(own, d, s, s, es, n);
  }

  /**
   Whatever the peer sends: past the hello it has greeted in this version; past the summary it tracks this
   device's vault or none, or gave its own to a device that had none; past the history the graph is one it
   sent, each revision once; what is served is what it asked for; and the session completes and finishes
   only when it may.
   */
  lemma {:induction false} OpeningWasChecked(sha: Digest, chunkBytes: nat, hello: Message, vaultId: Option<VaultId>, d: Disk,
      ss: seq<Side>, es: seq<Event>, n: nat)
    requires chunkBytes > 0 && IsLife(sha, chunkBytes, hello, vaultId, d, ss, es) && n <= |es|
    requires SizeFaithful(sha) && Sound(sha, d)
    ensures OpenedWell(vaultId, d, ss[n], es, n)
  {
    hide AfterEvent, OpenedWell, StoreKept, Sound, SizeFaithful;
    if n == 0 {
      FreshWell(hello, vaultId, d, ss[0], es);
    } else {
      var s, e := ss[n - 1], es[n - 1];
      OpeningWasChecked(sha, chunkBytes, hello, vaultId, d, ss, es, n - 1);
      StoreKeptAlways(sha, chunkBytes, hello, vaultId, d, ss, es, n - 1);
      SoundThen(sha, d, s);
      assert AfterEvent(sha, chunkBytes, s, e) == Some(ss[n - 1 + 1]);
      if e.RunGoes? {
        RunIsEvent(sha, chunkBytes, s, e);
        RunOpens(vaultId, d, sha, s, e.choice, es, n - 1);
        LaterWell(vaultId, d, ss[n], es, n - 1);
      } else {
        HandlerLeavesOpening(sha, chunkBytes, s, e);
        LeavesKeeps(vaultId, d, s, ss[n], es, n - 1);
      }
    }
  }

  lemma SoundThen(sha: Digest, d: Disk, s: Side)
    requires StoreKept(sha, d, s)
    ensures Sound(sha, s.disk)
  {
    hide Sound;
  }

  lemma FreshWell(hello: Message, vaultId: Option<VaultId>, d: Disk, s: Side, es: seq<Event>)
    requires s == FreshSide(hello, vaultId, d)
    ensures OpenedWell(vaultId, d, s, es, 0)
  {
    hide Heard;
  }
}
