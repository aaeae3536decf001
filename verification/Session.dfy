/**
 One side of a sync session (packages/sync/src/session.ts): a phase that advances between awaits, and
 handlers that run whenever a message, a frame or a finished transfer comes up. Both devices run it.
 What the environment decides (a signature's verdict, the order of rows, which valid want list the
 ordering produced) is a `Choice`.
 */
module Session {
  import opened Basics
  import opened Reachability
  import opened RemoteHistory
  import opened Framing
  import opened Chunks
  import opened Store
  import opened Engine
  import opened Messages
  import opened Inbound

  const PROTOCOL_VERSION := 1

  /** Advertised by a device that holds no vault. */
  const EMPTY_VAULT_ID := VaultId("\0none")

  datatype Phase =
    | Unstarted | AwaitHello | AwaitAuth | AwaitSummary | AwaitHistory | AwaitWants
    | Transferring | AwaitComplete | Finished | Failed

  /** The revision being served: its cut bytes, how many frames are out, and the answer once it came. */
  datatype Outgoing = Outgoing(revisionId: RevisionId, transferSeq: nat, slices: seq<Bytes>, nextChunk: nat, ack: Option<bool>)

  datatype Side = Side(
    hello: Message,
    vaultId: Option<VaultId>,
    disk: Disk,
    phase: Phase,
    inbox: seq<Message>,
    inboxFailed: bool,
    helloFrom: Option<DeviceId>,
    remote: Option<DeviceId>,
    remoteHead: Option<RevisionId>,
    remoteGraph: Graph,
    wanted: seq<RevisionId>,
    expected: set<RevisionId>,
    received: seq<RevisionId>,
    receiver: Receiver,
    toServe: seq<RevisionId>,
    outgoing: Option<Outgoing>,
    transferSeq: nat,
    sent: seq<RevisionId>,
    drained: bool,
    peerCompleted: bool,
    out: seq<Message>,
    bulkOut: seq<ChunkFrame>)

  datatype Choice = Choice(decodes: bool, trusted: bool, signature: string, history: seq<HistoryEntry>, wanted: seq<RevisionId>)

  function FreshSide(hello: Message, vaultId: Option<VaultId>, disk: Disk): Side {
    Side(hello, vaultId, disk, Unstarted, [], false, None, None, None, map[], [], {}, [], IDLE, [], None, 0, [],
      false, false, [], [])
  }

  function Send(s: Side, m: Message): Side {
    s.(out := s.out + [m])
  }

  function Fail(s: Side): Side {
    s.(phase := Failed)
  }

  // ---- awaited messages ----------------------------------------------------

  /** Whether `m` is what the phase awaits. */
  predicate Awaited(p: Phase, m: Message) {
    match p
    case AwaitHello => m.Hello?
    case AwaitAuth => m.Auth?
    case AwaitSummary => m.VaultSummary?
    case AwaitHistory => m.HistorySummary?
    case AwaitWants => m.WantRevisions?
    case _ => false
  }

  /** The position of the first queued message the phase awaits. */
  function FirstAwaited(p: Phase, inbox: seq<Message>): (i: Option<nat>)
    ensures i.Some? ==> i.value < |inbox| && Awaited(p, inbox[i.value])
    ensures i.Some? ==> forall k :: 0 <= k < i.value ==> !Awaited(p, inbox[k])
    ensures i.None? ==> forall k :: 0 <= k < |inbox| ==> !Awaited(p, inbox[k])
  {
    if inbox == [] then None
    else if Awaited(p, inbox[0]) then Some(0)
    else match FirstAwaited(p, inbox[1..])
      case None => None
      case Some(i) => Some(i + 1)
  }

  // ---- what is advertised ---------------------------------------------------

  /** The vault's revisions, each once, in whatever order the query returns rows. */
  ghost predicate IsHistory(t: Tables, v: VaultId, entries: seq<HistoryEntry>) {
    && (forall i, j :: 0 <= i < j < |entries| ==> entries[i].revisionId != entries[j].revisionId)
    && (forall i :: 0 <= i < |entries| ==>
          var e := entries[i];
          e.revisionId in t.rows && t.rows[e.revisionId].vaultId == v && e.hash == t.rows[e.revisionId].hash
          && e.sizeBytes == t.rows[e.revisionId].sizeBytes && e.parentIds == ParentsOf(t, e.revisionId))
    && (forall id :: id in t.rows && t.rows[id].vaultId == v ==> exists i :: 0 <= i < |entries| && entries[i].revisionId == id)
  }

  /** The graph of a summary; the last entry of an id wins. */
  function HistoryGraph(entries: seq<HistoryEntry>): Graph {
    if |entries| == 0 then map[]
    else HistoryGraph(entries[..|entries| - 1])[entries[|entries| - 1].revisionId := entries[|entries| - 1].parentIds]
  }

  ghost predicate AcceptableHistory(entries: seq<HistoryEntry>) {
    (forall i, j :: 0 <= i < j < |entries| ==> entries[i].revisionId != entries[j].revisionId)
    && Acyclic(HistoryGraph(entries))
  }

  function SummaryOf(s: Side): Message {
    if s.vaultId.Some? && s.vaultId.value in s.disk.tables.vaults then
      var v := s.vaultId.value;
      VaultSummary(v, s.disk.tables.vaults[v].name, |VaultGraph(s.disk.tables, v)|, s.disk.tables.vaults[v].head)
    else VaultSummary(EMPTY_VAULT_ID, "", 0, None)
  }

  // ---- the run between awaits -------------------------------------------------

  function ConsumeHello(s: Side, m: Message, c: Choice): Side
    requires m.Hello?
  {
    if m.protocolVersion != PROTOCOL_VERSION then Fail(Send(s, Error(UnsupportedVersion, "")))
    else if !c.decodes then Fail(s)
    else Send(s, Auth(c.signature)).(phase := AwaitAuth, helloFrom := Some(m.deviceId))
  }

  /** Only here does a peer become known; only then is anything about the vault sent. */
  function ConsumeAuth(s: Side, c: Choice): Side {
    if !c.decodes then Fail(s)
    else if !c.trusted then Fail(Send(s, Error(Unauthorized, "")))
    else
      var known := s.(remote := s.helloFrom);
      if s.vaultId.Some? && s.vaultId.value !in s.disk.tables.vaults then Fail(Send(known, Error(UnknownVault, "")))
      else Send(known, SummaryOf(s)).(phase := AwaitSummary)
  }

  /** A device without a vault adopts the peer's, id and all. */
  ghost function ConsumeSummary(sha: Digest, s: Side, m: Message, c: Choice): Option<Side>
    requires m.VaultSummary?
  {
    var remoteHasVault := m.vaultId != EMPTY_VAULT_ID;
    if s.vaultId.None? && !remoteHasVault then Some(Fail(s))
    else if s.vaultId.Some? && remoteHasVault && m.vaultId != s.vaultId.value then Some(Fail(s))
    else
      var v := if s.vaultId.Some? then s.vaultId.value else m.vaultId;
      var disk := if s.vaultId.Some? then s.disk
                  else Replay(sha, s.disk, AdoptVault(s.disk.tables, v, m.vaultName).steps);
      if !IsHistory(disk.tables, v, c.history) then None
      else Some(Send(s, HistorySummary(v, c.history))
        .(phase := AwaitHistory, vaultId := Some(v), disk := disk, remoteHead := m.headRevisionId))
  }

  /** Validates the peer's summary, then asks for the remote head's missing ancestors, parents first. */
  ghost function ConsumeHistory(s: Side, m: Message, c: Choice): Option<Side>
    requires m.HistorySummary? && s.vaultId.Some?
  {
    var g := HistoryGraph(m.revisions);
    var held := VaultGraph(s.disk.tables, s.vaultId.value).Keys;
    if !AcceptableHistory(m.revisions) then Some(Fail(s))
    else if (if s.remoteHead.None? then c.wanted != [] else !IsWantList(g, s.remoteHead.value, held, c.wanted)) then None
    else Some(Send(s, WantRevisions(s.vaultId.value, c.wanted))
      .(phase := AwaitWants, remoteGraph := g, wanted := c.wanted, expected := SeqToSet(c.wanted)))
  }

  function ConsumeWants(s: Side, m: Message): Side
    requires m.WantRevisions?
  {
    s.(phase := Transferring, toServe := m.revisionIds, drained := s.expected == {})
  }

  ghost function Consume(sha: Digest, s: Side, m: Message, c: Choice): Option<Side>
    requires Awaited(s.phase, m)
  {
    match s.phase
    case AwaitHello => Some(ConsumeHello(s, m, c))
    case AwaitAuth => Some(ConsumeAuth(s, c))
    case AwaitSummary => ConsumeSummary(sha, s, m, c)
    case AwaitHistory => if s.vaultId.None? then Some(Fail(s)) else ConsumeHistory(s, m, c)
    case AwaitWants => Some(ConsumeWants(s, m))
  }

  /** The next piece of `run`, if it can go on. */
  ghost function RunStep(sha: Digest, s: Side, c: Choice): Option<Side> {
    match s.phase
    case Unstarted => Some(Send(s, s.hello).(phase := AwaitHello))
    case Transferring =>
      if s.toServe == [] && s.outgoing.None? && s.drained && s.vaultId.Some?
      then Some(Send(s, SyncComplete(s.vaultId.value)).(phase := AwaitComplete)) else None
    case AwaitComplete => if s.peerCompleted && s.receiver.ready == [] then Some(s.(phase := Finished)) else None
    case Finished => None
    case Failed => None
    case _ =>
      if s.inboxFailed then Some(Fail(s))
      else
        var i := FirstAwaited(s.phase, s.inbox);
        if i.None? then None
        else Consume(sha, s.(inbox := s.inbox[..i.value] + s.inbox[i.value + 1..]), s.inbox[i.value], c)
  }

  // ---- serving ---------------------------------------------------------------

  function HeaderFor(t: Tables, id: RevisionId, seqNo: nat, totalChunks: nat): Header
    requires id in t.rows
  {
    var r := t.rows[id];
    Header(seqNo, r.vaultId, id, r.hash, r.sizeBytes, ParentsOf(t, id), totalChunks, r.message)
  }

  /**
   The serving loop: skip what is not held, announce the next revision, push its frames one by one,
   then wait for its answer before going on.
   */
  function ServeStep(chunkBytes: nat, s: Side): Option<Side>
    requires chunkBytes > 0
  {
    if s.phase != Transferring then None
    else match s.outgoing
      case None =>
        if s.toServe == [] then None
        else
          var id, rest := s.toServe[0], s.toServe[1..];
          if id !in s.disk.tables.rows then Some(s.(toServe := rest))
          else if s.disk.tables.rows[id].hash !in s.disk.blobs then Some(Fail(s))
          else
            var seqNo := s.transferSeq + 1;
            var slices := SlicesOf(s.disk.blobs[s.disk.tables.rows[id].hash], chunkBytes);
            Some(Send(s, RevisionHeader(HeaderFor(s.disk.tables, id, seqNo, |slices|)))
              .(toServe := rest, transferSeq := seqNo, outgoing := Some(Outgoing(id, seqNo, slices, 0, None))))
      case Some(o) =>
        if o.nextChunk < |o.slices| then
          Some(s.(bulkOut := s.bulkOut + [ChunkFrame(o.transferSeq, o.nextChunk, o.slices[o.nextChunk])],
                  outgoing := Some(o.(nextChunk := o.nextChunk + 1))))
        else if o.ack.Some? then
          Some(s.(outgoing := None, sent := if o.ack.value then s.sent + [o.revisionId] else s.sent))
        else None
  }

  // ---- handlers ----------------------------------------------------------------

  /** `notifyProgress`: only the waiting drain listens. */
  function Notify(s: Side): Side {
    if s.phase == Transferring && (s.expected == {} || s.peerCompleted) then s.(drained := true) else s
  }

  function Reject(s: Side, id: RevisionId): Side {
    Notify(Send(s, RevisionAck(id, false, None)).(expected := s.expected - {id}))
  }

  function RejectAll(s: Side, ids: seq<RevisionId>): Side {
    if |ids| == 0 then s else Reject(RejectAll(s, ids[..|ids| - 1]), ids[|ids| - 1])
  }

  /** Refusing revisions sends answers and stops expecting them. */
  lemma {:induction false} RejectAllFrame(s: Side, ids: seq<RevisionId>)
    ensures var s' := RejectAll(s, ids);
      s' == s.(out := s'.out, expected := s'.expected, drained := s'.drained) && s.out <= s'.out && (ids == [] ==> s' == s)
  {
    if |ids| > 0 {
      RejectAllFrame(s, ids[..|ids| - 1]);
    }
  }

  /** Takes over what the transfers made of an event, answering for the refused ones at once. */
  function Absorb(s: Side, r: Receiver): Side {
    RejectAll(s.(receiver := r.(refused := [])), r.refused)
  }

  function OnBulk(s: Side, f: ChunkFrame): Side {
    Absorb(s, OnFrame(s.receiver, f))
  }

  function OnAck(s: Side, id: RevisionId, accepted: bool): Side {
    if s.outgoing.Some? && s.outgoing.value.revisionId == id && s.outgoing.value.ack.None?
    then s.(outgoing := Some(s.outgoing.value.(ack := Some(accepted)))) else s
  }

  function OnCancel(s: Side, seqNo: nat): Side {
    if seqNo !in s.receiver.assemblers then s
    else
      var id := s.receiver.assemblers[seqNo].header.revisionId;
      Notify(s.(receiver := s.receiver.(assemblers := s.receiver.assemblers - {seqNo}), expected := s.expected - {id}))
  }

  /** One control message. A header before the peer is known fails the session; unhandled types queue. */
  function OnControl(s: Side, m: Message): Side {
    match m
    case RevisionHeader(h) => if s.remote.None? then s.(inboxFailed := true) else Absorb(s, OnHeader(s.receiver, h))
    case RevisionAck(id, accepted, _) => OnAck(s, id, accepted)
    case SyncComplete(_) => Notify(s.(peerCompleted := true))
    case TransferCancel(seqNo, _) => OnCancel(s, seqNo)
    case Error(_, _) => s.(inboxFailed := true)
    case _ => s.(inbox := s.inbox + [m])
  }

  function InputOf(s: Side, d: Delivery): ReceivedInput
    requires s.remote.Some?
  {
    ReceivedInput(d.header.vaultId, d.header.revisionId, d.header.parentIds, d.header.hash, d.bytes, s.remote.value, d.header.message)
  }

  /** The oldest finished transfer is ingested and answered; ingests never overlap. */
  function IngestStep(sha: Digest, s: Side): Option<Side> {
    if s.receiver.ready == [] || s.remote.None? then None
    else
      var d := s.receiver.ready[0];
      var e := IngestReceivedRevision(sha, s.disk.tables, InputOf(s, d));
      var after := s.(receiver := s.receiver.(ready := s.receiver.ready[1..]), disk := Replay(sha, s.disk, e.steps));
      if e.outcome.Stored? || e.outcome.AlreadyPresent? then
        Some(Notify(Send(after, RevisionAck(d.header.revisionId, true, None))
          .(expected := s.expected - {d.header.revisionId}, received := s.received + [d.header.revisionId])))
      else Some(Reject(after, d.header.revisionId))
  }

  // ---- reading what was sent -------------------------------------------------------

  function HeaderIn(m: Message): seq<Header> {
    if m.RevisionHeader? then [m.header] else []
  }

  function AckIn(m: Message): seq<(RevisionId, bool)> {
    if m.RevisionAck? then [(m.ackId, m.accepted)] else []
  }

  function Headers(ms: seq<Message>): seq<Header> {
    if ms == [] then [] else HeaderIn(ms[0]) + Headers(ms[1..])
  }

  function Acks(ms: seq<Message>): seq<(RevisionId, bool)> {
    if ms == [] then [] else AckIn(ms[0]) + Acks(ms[1..])
  }

  predicate HasComplete(ms: seq<Message>) {
    exists i :: 0 <= i < |ms| && ms[i].SyncComplete?
  }

  lemma {:induction false} AppendReads(ms: seq<Message>, m: Message)
    ensures Headers(ms + [m]) == Headers(ms) + HeaderIn(m)
    ensures Acks(ms + [m]) == Acks(ms) + AckIn(m)
    ensures HasComplete(ms + [m]) <==> HasComplete(ms) || m.SyncComplete?
  {
    if ms != [] {
      assert (ms + [m])[1..] == ms[1..] + [m];
      AppendReads(ms[1..], m);
      assert HeaderIn(ms[0]) + (Headers(ms[1..]) + HeaderIn(m)) == Headers(ms) + HeaderIn(m);
      assert AckIn(ms[0]) + (Acks(ms[1..]) + AckIn(m)) == Acks(ms) + AckIn(m);
    } else {
      assert ms + [m] == [m] && [m][1..] == [];
    }
    assert (ms + [m])[|ms|] == m;
    assert forall i :: 0 <= i < |ms| ==> (ms + [m])[i] == ms[i];
  }

  /** Sending one more message, seen from the unread end. */
  lemma SendReads(out: seq<Message>, read: nat, m: Message)
    requires read <= |out|
    ensures Headers((out + [m])[read..]) == Headers(out[read..]) + HeaderIn(m)
    ensures Acks((out + [m])[read..]) == Acks(out[read..]) + AckIn(m)
    ensures HasComplete((out + [m])[read..]) <==> HasComplete(out[read..]) || m.SyncComplete?
  {
    assert (out + [m])[read..] == out[read..] + [m];
    AppendReads(out[read..], m);
  }

  /** Delivering one message. */
  lemma DeliverReads(out: seq<Message>, read: nat)
    requires read < |out|
    ensures Headers(out[read..]) == HeaderIn(out[read]) + Headers(out[read + 1..])
    ensures Acks(out[read..]) == AckIn(out[read]) + Acks(out[read + 1..])
    ensures HasComplete(out[read..]) <==> out[read].SyncComplete? || HasComplete(out[read + 1..])
  {
    var u := out[read..];
    assert u[1..] == out[read + 1..];
    if HasComplete(u) && !u[0].SyncComplete? {
      var i :| 0 <= i < |u| && u[i].SyncComplete?;
      assert u[1..][i - 1].SyncComplete?;
    }
    if HasComplete(u[1..]) {
      var i :| 0 <= i < |u[1..]| && u[1..][i].SyncComplete?;
      assert u[i + 1].SyncComplete?;
    }
  }

  // ---- summaries and their graphs ------------------------------------------------

  /** The graph of a summary that names each revision once. */
  lemma {:induction false} HistoryGraphAt(es: seq<HistoryEntry>, i: nat)
    requires i < |es| && forall j, k :: 0 <= j < k < |es| ==> es[j].revisionId != es[k].revisionId
    ensures es[i].revisionId in HistoryGraph(es) && HistoryGraph(es)[es[i].revisionId] == es[i].parentIds
  {
    if i < |es| - 1 {
      HistoryGraphAt(es[..|es| - 1], i);
    }
  }

  lemma {:induction false} HistoryGraphKeys(es: seq<HistoryEntry>, id: RevisionId)
    ensures id in HistoryGraph(es) <==> exists i :: 0 <= i < |es| && es[i].revisionId == id
  {
    if |es| > 0 {
      HistoryGraphKeys(es[..|es| - 1], id);
      var earlier := es[..|es| - 1];
      if i :| 0 <= i < |earlier| && earlier[i].revisionId == id {
        assert es[i].revisionId == id;
      }
      if i :| 0 <= i < |es| && es[i].revisionId == id {
        assert i < |earlier| ==> earlier[i].revisionId == id;
      }
    }
  }

  lemma {:induction false} HistoryIsAcyclic(es: seq<HistoryEntry>)
    requires AcceptableHistory(es)
    ensures Acyclic(HistoryGraph(es))
  {
  }

  // ---- what serving starts with ---------------------------------------------------

  lemma ServeStarts(chunkBytes: nat, x: Side, h: Header, slices: seq<Bytes>)
    requires chunkBytes > 0 && x.phase == Transferring && x.outgoing.None? && x.toServe != []
    requires x.toServe[0] in x.disk.tables.rows && x.disk.tables.rows[x.toServe[0]].hash in x.disk.blobs
    requires slices == SlicesOf(BytesOf(x.disk, x.toServe[0]), chunkBytes)
    requires h == HeaderFor(x.disk.tables, x.toServe[0], x.transferSeq + 1, |slices|)
    ensures ServeStep(chunkBytes, x)
         == Some(Send(x, RevisionHeader(h)).(toServe := x.toServe[1..], transferSeq := x.transferSeq + 1,
              outgoing := Some(Outgoing(x.toServe[0], x.transferSeq + 1, slices, 0, None))))
  {
    hide SlicesOf, HeaderFor;
  }

  // ---- the run never touches a transfer --------------------------------------------

  /** At most one message was added, and it concerns no transfer. */
  ghost predicate SaysNoTransfer(out: seq<Message>, out': seq<Message>) {
    out' == out || (out' != [] && out' == out + [out'[|out'| - 1]]
                    && !out'[|out'| - 1].RevisionHeader? && !out'[|out'| - 1].RevisionAck?)
  }

  lemma SilentSays(out: seq<Message>)
    ensures SaysNoTransfer(out, out)
  {
  }

  ghost predicate SameTransfers(x: Side, x': Side) {
    && x'.outgoing == x.outgoing && x'.sent == x.sent && x'.transferSeq == x.transferSeq && x'.bulkOut == x.bulkOut
    && x'.receiver == x.receiver && x'.received == x.received
    && SaysNoTransfer(x.out, x'.out)
  }

  lemma SendSays(out: seq<Message>, m: Message)
    requires !m.RevisionHeader? && !m.RevisionAck?
    ensures SaysNoTransfer(out, out + [m])
  {
  }

  lemma ConsumeFrame(sha: Digest, x: Side, m: Message, c: Choice)
    requires Awaited(x.phase, m) && Consume(sha, x, m, c).Some?
    ensures SameTransfers(x, Consume(sha, x, m, c).value)
  {
    hide SameTransfers, ConsumeHello, ConsumeAuth, ConsumeSummary, ConsumeHistory, SaysNoTransfer;
    SilentSays(x.out);
    match x.phase
    case AwaitHello => ConsumeHelloFrame(x, m, c);
    case AwaitAuth => ConsumeAuthFrame(x, c);
    case AwaitSummary => ConsumeSummaryFrame(sha, x, m, c);
    case AwaitHistory => ConsumeHistoryFrame(x, m, c);
    case AwaitWants => UnsentFrame(x, ConsumeWants(x, m));
  }

  lemma UnsentFrame(x: Side, x': Side)
    requires x'.outgoing == x.outgoing && x'.sent == x.sent && x'.transferSeq == x.transferSeq && x'.bulkOut == x.bulkOut
    requires x'.receiver == x.receiver && x'.received == x.received && x'.out == x.out
    ensures SameTransfers(x, x')
  {
  }

  lemma ConsumeHelloFrame(x: Side, m: Message, c: Choice)
    requires m.Hello?
    ensures SameTransfers(x, ConsumeHello(x, m, c))
  {
    hide SaysNoTransfer;
    SilentSays(x.out);
    SendSays(x.out, Error(UnsupportedVersion, ""));
    SendSays(x.out, Auth(c.signature));
  }

  lemma ConsumeAuthFrame(x: Side, c: Choice)
    ensures SameTransfers(x, ConsumeAuth(x, c))
  {
    hide SaysNoTransfer, SummaryOf;
    SilentSays(x.out);
    SendSays(x.out, Error(Unauthorized, ""));
    SendSays(x.out, Error(UnknownVault, ""));
    SummaryIsSummary(x);
    SendSays(x.out, SummaryOf(x));
  }

  lemma ConsumeSummaryFrame(sha: Digest, x: Side, m: Message, c: Choice)
    requires m.VaultSummary? && ConsumeSummary(sha, x, m, c).Some?
    ensures SameTransfers(x, ConsumeSummary(sha, x, m, c).value)
  {
    hide SaysNoTransfer, IsHistory, Replay, AdoptVault;
    SilentSays(x.out);
    SendSays(x.out, HistorySummary(if x.vaultId.Some? then x.vaultId.value else m.vaultId, c.history));
  }

  lemma ConsumeHistoryFrame(x: Side, m: Message, c: Choice)
    requires m.HistorySummary?
    ensures x.vaultId.None? ==> SameTransfers(x, Fail(x))
    ensures x.vaultId.Some? && ConsumeHistory(x, m, c).Some? ==> SameTransfers(x, ConsumeHistory(x, m, c).value)
  {
    hide SaysNoTransfer, AcceptableHistory, IsWantList, VaultGraph, HistoryGraph;
    SilentSays(x.out);
    if x.vaultId.Some? {
      SendSays(x.out, WantRevisions(x.vaultId.value, c.wanted));
    }
  }

  lemma SummaryIsSummary(x: Side)
    ensures SummaryOf(x).VaultSummary?
  {
    hide VaultGraph;
  }

  /** The run itself never touches a transfer. */
  lemma RunStepFrame(sha: Digest, x: Side, c: Choice)
    requires RunStep(sha, x, c).Some? && x.hello.Hello?
    ensures SameTransfers(x, RunStep(sha, x, c).value)
  {
    hide Consume, SaysNoTransfer, FirstAwaited;
    SilentSays(x.out);
    SendSays(x.out, x.hello);
    if x.vaultId.Some? {
      SendSays(x.out, SyncComplete(x.vaultId.value));
    }
    var i := FirstAwaited(x.phase, x.inbox);
    if x.phase in {AwaitHello, AwaitAuth, AwaitSummary, AwaitHistory, AwaitWants} && !x.inboxFailed && i.Some? {
      ConsumeFrame(sha, x.(inbox := x.inbox[..i.value] + x.inbox[i.value + 1..]), x.inbox[i.value], c);
    }
  }
}
