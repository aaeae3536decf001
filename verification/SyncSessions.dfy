/**
 The session object itself (packages/sync/src/session.ts): its fields, changed in place by the handlers
 and by the pieces of `run`. Every method is tied to the side machine, about which the theorems speak.
 */
module SyncSessions {
  import opened Basics
  import opened Reachability
  import opened RemoteHistory
  import opened Framing
  import opened Chunks
  import opened Store
  import opened Engine
  import opened Messages
  import opened Inbound
  import opened Session

  // ---- reading and checking histories ----------------------------------------------

  /** Each revision of the vault that is no longer pending has its entry. */
  ghost predicate Listed(t: Tables, v: VaultId, pending: set<RevisionId>, es: seq<HistoryEntry>) {
    forall id :: id in t.rows && id !in pending && t.rows[id].vaultId == v ==> exists i :: 0 <= i < |es| && es[i].revisionId == id
  }

  lemma ListedAppend(t: Tables, v: VaultId, pending: set<RevisionId>, es: seq<HistoryEntry>, e: HistoryEntry)
    requires Listed(t, v, pending + {e.revisionId}, es)
    ensures Listed(t, v, pending, es + [e])
  {
    var more := es + [e];
    forall id | id in t.rows && id !in pending && t.rows[id].vaultId == v
      ensures exists i :: 0 <= i < |more| && more[i].revisionId == id
    {
      if id == e.revisionId {
        assert more[|es|].revisionId == id;
      } else {
        var i :| 0 <= i < |es| && es[i].revisionId == id;
        assert more[i].revisionId == id;
      }
    }
  }

  /** One entry for each revision of the vault. */
  method HistoryOf(metadata: MetadataStore, v: VaultId) returns (es: seq<HistoryEntry>)
    ensures IsHistory(metadata.Contents(), v, es)
  {
    ghost var t := metadata.Contents();
    es := [];
    assert Listed(t, v, metadata.rows.Keys, es);
    var pending := metadata.rows.Keys;
    while pending != {}
      invariant pending <= metadata.rows.Keys
      invariant forall i :: 0 <= i < |es| ==> es[i].revisionId in t.rows && es[i].revisionId !in pending
      invariant forall i, j :: 0 <= i < j < |es| ==> es[i].revisionId != es[j].revisionId
      invariant forall i :: 0 <= i < |es| ==>
        var e := es[i];
        t.rows[e.revisionId].vaultId == v && e.hash == t.rows[e.revisionId].hash
        && e.sizeBytes == t.rows[e.revisionId].sizeBytes && e.parentIds == ParentsOf(t, e.revisionId)
      invariant Listed(t, v, pending, es)
      decreases pending
    {
      hide Listed;
      var id :| id in pending;
      ghost var was := pending;
      pending := pending - {id};
      assert pending + {id} == was;
      var row := metadata.rows[id];
      if row.vaultId == v {
        var e := HistoryEntry(id, row.hash, row.sizeBytes, if id in metadata.parents then metadata.parents[id] else []);
        ListedAppend(t, v, pending, es, e);
        es := es + [e];
      }
    }
  }

  /** Accepts exactly the summaries that name each revision once and contain no cycle. */
  method CheckHistory(es: seq<HistoryEntry>) returns (ok: bool, g: Graph)
    ensures ok <==> AcceptableHistory(es)
    ensures ok ==> g == HistoryGraph(es)
  {
    var nodes := seq(|es|, i requires 0 <= i < |es| => Node(es[i].revisionId, es[i].parentIds));
    ok, g := ValidateRemoteGraph(nodes);
    if DistinctIds(nodes) {
      forall i, j | 0 <= i < j < |es|
        ensures es[i].revisionId != es[j].revisionId
      {
        assert nodes[i].id != nodes[j].id;
      }
      SameGraph(es, nodes, g);
    }
  }

  lemma {:induction false} SameGraph(es: seq<HistoryEntry>, nodes: seq<Node>, g: Graph)
    requires |nodes| == |es| && forall i :: 0 <= i < |es| ==> nodes[i] == Node(es[i].revisionId, es[i].parentIds)
    requires forall i, j :: 0 <= i < j < |es| ==> es[i].revisionId != es[j].revisionId
    requires g.Keys == set i | 0 <= i < |nodes| :: nodes[i].id
    requires forall i :: 0 <= i < |nodes| ==> nodes[i].id in g && g[nodes[i].id] == nodes[i].parentIds
    ensures g == HistoryGraph(es)
  {
    var h := HistoryGraph(es);
    forall id
      ensures id in g <==> id in h
      ensures id in g ==> g[id] == h[id]
    {
      HistoryGraphKeys(es, id);
      if id in g {
        var i :| 0 <= i < |nodes| && nodes[i].id == id;
        HistoryGraphAt(es, i);
      }
      if id in h {
        var i :| 0 <= i < |es| && es[i].revisionId == id;
        assert nodes[i].id == id;
      }
    }
  }

  // ---- the session -----------------------------------------------------------------

  class SyncSession {
    const engine: SyncEngine
    const transfers: InboundTransfers
    const hello: Message
    var vaultId: Option<VaultId>
    var phase: Phase
    var inbox: seq<Message>
    var inboxFailed: bool
    var helloFrom: Option<DeviceId>
    var remote: Option<DeviceId>
    var remoteHead: Option<RevisionId>
    var remoteGraph: Graph
    var wanted: seq<RevisionId>
    var expected: set<RevisionId>
    var received: seq<RevisionId>
    var toServe: seq<RevisionId>
    var outgoing: Option<Outgoing>
    var transferSeq: nat
    var sent: seq<RevisionId>
    var drained: bool
    var peerCompleted: bool
    var out: seq<Message>
    var bulkOut: seq<ChunkFrame>

    ghost function State(): Side
      reads this, transfers, engine, engine.metadata, engine.blobs
    {
      Side(hello, vaultId, engine.State(), phase, inbox, inboxFailed, helloFrom, remote, remoteHead, remoteGraph, wanted, expected,
        received, transfers.State(), toServe, outgoing, transferSeq, sent, drained, peerCompleted, out, bulkOut)
    }

    ghost predicate Valid()
      reads transfers, engine, engine.metadata, engine.blobs
    {
      engine.Valid() && Wellformed(transfers.State())
    }

    constructor (engine: SyncEngine, hello: Message, vaultId: Option<VaultId>)
      requires engine.Valid()
      ensures Valid() && this.engine == engine && fresh(transfers) && State() == FreshSide(hello, vaultId, engine.State())
    {
      this.engine, this.hello, this.vaultId := engine, hello, vaultId;
      transfers := new InboundTransfers();
      phase, inbox, inboxFailed, helloFrom, remote, remoteHead := Unstarted, [], false, None, None, None;
      remoteGraph, wanted, expected, received := map[], [], {}, [];
      toServe, outgoing, transferSeq, sent, drained, peerCompleted, out, bulkOut := [], None, 0, [], false, false, [], [];
    }

    // ---- handlers ----------------------------------------------------------------

    method NotifyProgress()
      modifies `drained
      ensures State() == Notify(old(State()))
    {
      if phase == Transferring && (expected == {} || peerCompleted) {
        drained := true;
      }
    }

    /** Sends an answer and stops expecting the revision. */
    method Answer(id: RevisionId, accepted: bool)
      modifies `out, `expected
      ensures out == old(out) + [RevisionAck(id, accepted, None)] && expected == old(expected) - {id}
    {
      out, expected := out + [RevisionAck(id, accepted, None)], expected - {id};
    }

    method RejectRevision(id: RevisionId)
      modifies `out, `expected, `drained
      ensures State() == Reject(old(State()), id)
    {
      hide Notify;
      Answer(id, false);
      NotifyProgress();
    }

    /** Answers for the revisions whose frames did not fit. */
    method AnswerRefused()
      modifies `out, `expected, `drained, transfers
      ensures State() == Absorb(old(State()), old(transfers.State()))
    {
      hide Reject;
      var refused := transfers.refused;
      transfers.refused := [];
      ghost var start := State();
      for i := 0 to |refused|
        invariant State() == RejectAll(start, refused[..i])
      {
        assert refused[..i + 1][..i] == refused[..i];
        RejectRevision(refused[i]);
      }
      assert refused[..|refused|] == refused;
    }

    method HandleFrame(f: ChunkFrame)
      requires Valid()
      modifies `out, `expected, `drained, transfers
      ensures Valid() && State() == OnBulk(old(State()), f)
    {
      hide OnFrame, RejectAll;
      ghost var before, r := State(), OnFrame(transfers.State(), f);
      transfers.HandleFrame(f);
      AbsorbIgnores(before, r);
      AbsorbedWellformed(before, r);
      AnswerRefused();
    }

    method HandleHeader(h: Header)
      requires Valid()
      modifies `out, `expected, `drained, transfers
      ensures Valid() && State() == Absorb(old(State()), OnHeader(old(transfers.State()), h))
    {
      hide OnHeader, RejectAll;
      ghost var before, r := State(), OnHeader(transfers.State(), h);
      transfers.HandleHeader(h);
      AbsorbIgnores(before, r);
      AbsorbedWellformed(before, r);
      AnswerRefused();
    }

    method HandleAck(id: RevisionId, accepted: bool)
      modifies `outgoing
      ensures State() == OnAck(old(State()), id, accepted)
    {
      if outgoing.Some? && outgoing.value.revisionId == id && outgoing.value.ack.None? {
        outgoing := Some(outgoing.value.(ack := Some(accepted)));
      }
    }

    method HandleCancel(seqNo: nat)
      requires Valid()
      modifies `expected, `drained, transfers
      ensures Valid() && State() == OnCancel(old(State()), seqNo)
    {
      if seqNo !in transfers.assemblers {
        return;
      }
      var id := transfers.assemblers[seqNo].header.revisionId;
      transfers.assemblers := transfers.assemblers - {seqNo};
      expected := expected - {id};
      NotifyProgress();
    }

    method HandleControl(m: Message)
      requires Valid()
      modifies `out, `expected, `drained, `outgoing, `peerCompleted, `inbox, `inboxFailed, transfers
      ensures Valid() && State() == OnControl(old(State()), m)
    {
      hide OnControl, OnHeader, OnAck, OnCancel, Absorb, Notify, Wellformed;
      ControlCases(State(), m);
      match m
      case RevisionHeader(h) =>
        if remote.None? {
          Disturb();
        } else {
          HandleHeader(h);
        }
      case RevisionAck(id, accepted, _) => HandleAck(id, accepted);
      case SyncComplete(_) => HandleComplete();
      case TransferCancel(seqNo, _) => HandleCancel(seqNo);
      case Error(_, _) => Disturb();
      case _ => Enqueue(m);
    }

    method Disturb()
      modifies `inboxFailed
      ensures State() == old(State()).(inboxFailed := true)
    {
      inboxFailed := true;
    }

    method Enqueue(m: Message)
      modifies `inbox
      ensures State() == old(State()).(inbox := old(inbox) + [m])
    {
      inbox := inbox + [m];
    }

    method HandleComplete()
      modifies `peerCompleted, `drained
      ensures State() == Notify(old(State()).(peerCompleted := true))
    {
      hide Notify;
      peerCompleted := true;
      NotifyProgress();
    }

    /** Hands the oldest finished transfer to the engine and answers for it. */
    method IngestNext() returns (went: bool)
      requires Valid()
      modifies `out, `expected, `drained, `received, transfers, engine.metadata, engine.blobs, engine`steps
      ensures Valid() && went == IngestStep(engine.blobs.sha, old(State())).Some?
      ensures State() == if went then IngestStep(engine.blobs.sha, old(State())).value else old(State())
    {
      hide IngestReceivedRevision, Replay, Reject, Notify, Wellformed, InputOf;
      if transfers.ready == [] || remote.None? {
        return false;
      }
      went := true;
      var id := transfers.ready[0].header.revisionId;
      var outcome := GiveToEngine();
      if outcome.Stored? || outcome.AlreadyPresent? {
        Accepted(id);
      } else {
        RejectRevision(id);
      }
    }

    method GiveToEngine() returns (outcome: Outcome)
      requires Valid() && transfers.ready != [] && remote.Some?
      modifies transfers, engine.metadata, engine.blobs, engine`steps
      ensures Valid()
      ensures var s := old(State());
        var e := IngestReceivedRevision(engine.blobs.sha, s.disk.tables, InputOf(s, s.receiver.ready[0]));
        && outcome == e.outcome
        && State() == s.(receiver := s.receiver.(ready := s.receiver.ready[1..]), disk := Replay(engine.blobs.sha, s.disk, e.steps))
    {
      hide IngestReceivedRevision, Replay;
      var d := transfers.ready[0];
      var input := ReceivedInput(d.header.vaultId, d.header.revisionId, d.header.parentIds, d.header.hash, d.bytes, remote.value,
        d.header.message);
      transfers.ready := transfers.ready[1..];
      outcome := engine.Ingest(input);
    }

    method Accepted(id: RevisionId)
      modifies `out, `expected, `drained, `received
      ensures State() == var s := old(State()); Notify(Send(s, RevisionAck(id, true, None))
        .(expected := s.expected - {id}, received := s.received + [id]))
    {
      hide Notify;
      Answer(id, true);
      received := received + [id];
      NotifyProgress();
    }

    /** One turn of the serving loop. */
    method ServeNext(chunkBytes: nat) returns (went: bool)
      requires Valid() && chunkBytes > 0
      modifies `phase, `out, `bulkOut, `toServe, `transferSeq, `outgoing, `sent
      ensures Valid() && went == ServeStep(chunkBytes, old(State())).Some?
      ensures State() == if went then ServeStep(chunkBytes, old(State())).value else old(State())
    {
      hide SlicesOf, HeaderFor, Wellformed;
      if phase != Transferring {
        return false;
      }
      if outgoing.None? {
        if toServe == [] {
          return false;
        }
        went := true;
        StartNext(chunkBytes);
      } else {
        var o := outgoing.value;
        if o.nextChunk < |o.slices| {
          PushNext();
          return true;
        }
        if o.ack.None? {
          return false;
        }
        FinishServed();
        return true;
      }
    }

    method PushNext()
      requires outgoing.Some? && outgoing.value.nextChunk < |outgoing.value.slices|
      modifies `bulkOut, `outgoing
      ensures var o := old(outgoing.value);
        && bulkOut == old(bulkOut) + [ChunkFrame(o.transferSeq, o.nextChunk, o.slices[o.nextChunk])]
        && outgoing == Some(o.(nextChunk := o.nextChunk + 1))
    {
      var o := outgoing.value;
      bulkOut := bulkOut + [ChunkFrame(o.transferSeq, o.nextChunk, o.slices[o.nextChunk])];
      outgoing := Some(o.(nextChunk := o.nextChunk + 1));
    }

    method FinishServed()
      requires outgoing.Some? && outgoing.value.ack.Some?
      modifies `outgoing, `sent
      ensures outgoing == None
      ensures var o := old(outgoing.value); sent == if o.ack.value then old(sent) + [o.revisionId] else old(sent)
    {
      var o := outgoing.value;
      outgoing := None;
      if o.ack.value {
        sent := sent + [o.revisionId];
      }
    }

    // ---- the pieces of `run` -----------------------------------------------------

    method FailSession()
      modifies `phase
      ensures State() == Fail(old(State()))
    {
      phase := Failed;
    }

    /** After the peer's hello: the version is checked, its key decoded, its nonce signed. */
    method MeetHello(m: Message, decodes: bool, signature: string)
      requires m.Hello?
      modifies `out, `phase, `helloFrom
      ensures State() == ConsumeHello(old(State()), m, Choice(decodes, true, signature, [], []))
    {
      if m.protocolVersion != PROTOCOL_VERSION {
        out, phase := out + [Error(UnsupportedVersion, "")], Failed;
      } else if !decodes {
        phase := Failed;
      } else {
        out, phase, helloFrom := out + [Auth(signature)], AwaitAuth, Some(m.deviceId);
      }
    }

    method VaultSummaryMessage() returns (m: Message)
      requires vaultId.Some? ==> vaultId.value in engine.metadata.vaults
      ensures m == SummaryOf(State())
    {
      if vaultId.None? {
        return VaultSummary(EMPTY_VAULT_ID, "", 0, None);
      }
      var vault := engine.metadata.vaults[vaultId.value];
      var graph := engine.metadata.LoadGraph(vaultId.value);
      m := VaultSummary(vaultId.value, vault.name, |graph|, vault.head);
    }

    /** After the peer's signature: unless it is trusted nothing is said about the vault. */
    method MeetAuth(decodes: bool, trusted: bool)
      modifies `out, `phase, `remote
      ensures State() == ConsumeAuth(old(State()), Choice(decodes, trusted, "", [], []))
    {
      hide SummaryOf;
      if !decodes {
        phase := Failed;
      } else if !trusted {
        out, phase := out + [Error(Unauthorized, "")], Failed;
      } else if vaultId.Some? && vaultId.value !in engine.metadata.vaults {
        out, phase, remote := out + [Error(UnknownVault, "")], Failed, helloFrom;
      } else {
        var summary := VaultSummaryMessage();
        out, phase, remote := out + [summary], AwaitSummary, helloFrom;
      }
    }

    /** After the peer's vault summary: adopt its vault if there is none here, then send the history. */
    method MeetSummary(m: Message) returns (ghost history: seq<HistoryEntry>)
      requires Valid() && m.VaultSummary?
      modifies `out, `phase, `vaultId, `remoteHead, engine.metadata, engine`steps
      ensures Valid()
      ensures Some(State()) == ConsumeSummary(engine.blobs.sha, old(State()), m, Choice(true, true, "", history, []))
    {
      hide ConsumeSummary, Wellformed;
      if SummaryUnusable(vaultId, m) {
        history := [];
        SummaryRefused(engine.blobs.sha, State(), m);
        FailSession();
      } else {
        history := AcceptSummary(m);
      }
    }

    method AcceptSummary(m: Message) returns (ghost history: seq<HistoryEntry>)
      requires Valid() && m.VaultSummary? && !SummaryUnusable(vaultId, m)
      modifies `out, `phase, `vaultId, `remoteHead, engine.metadata, engine`steps
      ensures Valid()
      ensures Some(State()) == ConsumeSummary(engine.blobs.sha, old(State()), m, Choice(true, true, "", history, []))
    {
      hide IsHistory, Replay, AdoptVault, Wellformed, ConsumeSummary;
      ghost var before := State();
      var v := if vaultId.Some? then vaultId.value else m.vaultId;
      EnsureVault(v, m.vaultName);
      ghost var d := engine.State();
      history := SendHistory(v, m.headRevisionId);
      SummaryMet(engine.blobs.sha, before, m, v, d, history);
    }

    method SendHistory(v: VaultId, head: Option<RevisionId>) returns (ghost history: seq<HistoryEntry>)
      modifies `out, `phase, `vaultId, `remoteHead
      ensures IsHistory(engine.State().tables, v, history)
      ensures State() == Send(old(State()).(vaultId := Some(v), remoteHead := head), HistorySummary(v, history)).(phase := AwaitHistory)
    {
      hide IsHistory;
      var entries := HistoryOf(engine.metadata, v);
      history := entries;
      SettleOn(v, head);
      SayAndGo(HistorySummary(v, entries), AwaitHistory);
    }

    /** A device without a vault takes on the peer's. */
    method EnsureVault(v: VaultId, name: string)
      requires Valid()
      modifies engine.metadata, engine`steps
      ensures Valid()
      ensures State() == var s := old(State()); if vaultId.Some? then s
        else s.(disk := Replay(engine.blobs.sha, s.disk, AdoptVault(s.disk.tables, v, name).steps))
    {
      hide Replay, AdoptVault, Wellformed;
      if vaultId.None? {
        var _ := engine.Adopt(v, name);
      }
    }

    /** Sends a message and goes on to the next phase. */
    method SayAndGo(m: Message, next: Phase)
      modifies `out, `phase
      ensures State() == Send(old(State()), m).(phase := next)
    {
      out, phase := out + [m], next;
    }

    method SettleOn(v: VaultId, head: Option<RevisionId>)
      modifies `vaultId, `remoteHead
      ensures State() == old(State()).(vaultId := Some(v), remoteHead := head)
    {
      vaultId, remoteHead := Some(v), head;
    }

    /** After the peer's history: validate it, then ask for what its head rests on and is not held. */
    method MeetHistory(m: Message) returns (ghost wants: seq<RevisionId>)
      requires Valid() && m.HistorySummary? && vaultId.Some?
      modifies `out, `phase, `remoteGraph, `wanted, `expected
      ensures Some(State()) == ConsumeHistory(old(State()), m, Choice(true, true, "", [], wants))
    {
      hide ConsumeHistory, AcceptableHistory, HistoryGraph, Wants;
      ghost var before := State();
      wants := [];
      var ok, g := CheckHistory(m.revisions);
      if !ok {
        HistoryRefused(before, m);
        FailSession();
        return;
      }
      HistoryIsAcyclic(m.revisions);
      var list := ComputeWants(g);
      wants := list;
      HistoryMet(before, m, list);
      Expect(g, list);
      SayAndGo(WantRevisions(vaultId.value, list), AwaitWants);
    }

    method ComputeWants(g: Graph) returns (list: seq<RevisionId>)
      requires vaultId.Some? && Acyclic(g)
      ensures Wants(State(), g, list)
    {
      hide IsWantList;
      if remoteHead.None? {
        return [];
      }
      var local := engine.metadata.LoadGraph(vaultId.value);
      var missing := MissingRevisions(g, remoteHead.value, local.Keys);
      list := missing.value;
    }

    method Expect(g: Graph, list: seq<RevisionId>)
      modifies `remoteGraph, `wanted, `expected
      ensures State() == old(State()).(remoteGraph := g, wanted := list, expected := SeqToSet(list))
    {
      remoteGraph, wanted, expected := g, list, SeqToSet(list);
    }

    /** After the peer's wants: both directions start. */
    method MeetWants(m: Message)
      requires m.WantRevisions?
      modifies `phase, `toServe, `drained
      ensures State() == ConsumeWants(old(State()), m)
    {
      phase, toServe, drained := Transferring, m.revisionIds, expected == {};
    }

    /** Reacts to the message the phase awaited. */
    method Meet(m: Message, decodes: bool, trusted: bool, signature: string) returns (ghost c: Choice)
      requires Valid() && Awaited(phase, m)
      modifies `out, `phase, `helloFrom, `remote, `vaultId, `remoteHead, `remoteGraph, `wanted, `expected, `toServe, `drained
      modifies engine.metadata, engine`steps
      ensures Valid() && c.decodes == decodes && c.trusted == trusted && c.signature == signature
      ensures Consume(engine.blobs.sha, old(State()), m, c) == Some(State())
    {
      hide Consume, Wellformed;
      if phase == AwaitHello || phase == AwaitAuth {
        c := Choice(decodes, trusted, signature, [], []);
        MeetIdentity(m, decodes, trusted, signature);
      } else {
        c := MeetVault(m, decodes, trusted, signature);
      }
    }

    method MeetIdentity(m: Message, decodes: bool, trusted: bool, signature: string)
      requires (phase == AwaitHello || phase == AwaitAuth) && Awaited(phase, m)
      modifies `out, `phase, `helloFrom, `remote
      ensures Consume(engine.blobs.sha, old(State()), m, Choice(decodes, trusted, signature, [], [])) == Some(State())
    {
      hide Consume, ConsumeHello, ConsumeAuth;
      ConsumeCases(engine.blobs.sha, State(), m, Choice(decodes, trusted, signature, [], []));
      if phase == AwaitHello {
        MeetHello(m, decodes, signature);
      } else {
        MeetAuth(decodes, trusted);
      }
    }

    method MeetVault(m: Message, decodes: bool, trusted: bool, signature: string) returns (ghost c: Choice)
      requires Valid() && phase in {AwaitSummary, AwaitHistory, AwaitWants} && Awaited(phase, m)
      modifies `out, `phase, `vaultId, `remoteHead, `remoteGraph, `wanted, `expected, `toServe, `drained
      modifies engine.metadata, engine`steps
      ensures Valid() && c.decodes == decodes && c.trusted == trusted && c.signature == signature
      ensures Consume(engine.blobs.sha, old(State()), m, c) == Some(State())
    {
      hide Consume, ConsumeSummary, ConsumeHistory, ConsumeWants, Wellformed;
      c := Choice(decodes, trusted, signature, [], []);
      if phase != AwaitSummary {
        c := MeetLists(m, c);
        return;
      }
      ghost var before := State();
      ghost var history := MeetSummary(m);
      c := c.(history := history);
      ConsumeCases(engine.blobs.sha, before, m, c);
    }

    /** The two phases after the summary: the peer's history, then its want list. */
    method MeetLists(m: Message, ghost given: Choice) returns (ghost c: Choice)
      requires Valid() && phase in {AwaitHistory, AwaitWants} && Awaited(phase, m)
      modifies `out, `phase, `remoteGraph, `wanted, `expected, `toServe, `drained
      ensures Valid() && c == given.(wanted := c.wanted)
      ensures Consume(engine.blobs.sha, old(State()), m, c) == Some(State())
    {
      hide Consume, ConsumeSummary, ConsumeHistory, ConsumeWants, Wellformed;
      c := given;
      ghost var before := State();
      if phase == AwaitWants {
        MeetWants(m);
      } else if vaultId.None? {
        FailSession();
      } else {
        ghost var wants := MeetHistory(m);
        c := c.(wanted := wants);
      }
      ConsumeCases(engine.blobs.sha, before, m, c);
    }

    method TakeOut(i: nat)
      requires i < |inbox|
      modifies `inbox
      ensures State() == old(State()).(inbox := old(inbox[..i] + inbox[i + 1..]))
    {
      inbox := inbox[..i] + inbox[i + 1..];
    }

    /** Goes on from an await, if its message has come or the session has failed. */
    method GoOn(decodes: bool, trusted: bool, signature: string) returns (went: bool, ghost c: Choice)
      requires Valid() && phase in {AwaitHello, AwaitAuth, AwaitSummary, AwaitHistory, AwaitWants}
      modifies `inbox, `out, `phase, `helloFrom, `remote, `vaultId, `remoteHead, `remoteGraph, `wanted, `expected, `toServe, `drained
      modifies engine.metadata, engine`steps
      ensures Valid() && c.decodes == decodes && c.trusted == trusted && c.signature == signature
      ensures went ==> RunStep(engine.blobs.sha, old(State()), c) == Some(State())
      ensures !went ==> State() == old(State()) && CannotGo(engine.blobs.sha, old(State()))
    {
      hide RunStep, Consume, Wellformed, FirstAwaited, CannotGo;
      c := Choice(decodes, trusted, signature, [], []);
      ghost var before, sha := State(), engine.blobs.sha;
      AwaitCases(sha, before);
      if inboxFailed {
        FailSession();
        return true, c;
      }
      var i := FirstAwaited(phase, inbox);
      if i.None? {
        return false, c;
      }
      var m := inbox[i.value];
      TakeOut(i.value);
      c := Meet(m, decodes, trusted, signature);
      went := true;
    }

    /** The next piece of `run`, if it can go on. */
    method Proceed(decodes: bool, trusted: bool, signature: string) returns (went: bool, ghost c: Choice)
      requires Valid()
      modifies `inbox, `out, `phase, `helloFrom, `remote, `vaultId, `remoteHead, `remoteGraph, `wanted, `expected, `toServe, `drained
      modifies engine.metadata, engine`steps
      ensures Valid() && c.decodes == decodes && c.trusted == trusted && c.signature == signature
      ensures went ==> RunStep(engine.blobs.sha, old(State()), c) == Some(State())
      ensures !went ==> State() == old(State()) && CannotGo(engine.blobs.sha, old(State()))
    {
      hide RunStep, Wellformed, CannotGo;
      if phase in {AwaitHello, AwaitAuth, AwaitSummary, AwaitHistory, AwaitWants} {
        went, c := GoOn(decodes, trusted, signature);
      } else {
        c := Choice(decodes, trusted, signature, [], []);
        went := StartOrClose(c);
      }
    }

    /** The pieces that await no message of their own. */
    method StartOrClose(ghost c: Choice) returns (went: bool)
      requires phase !in {AwaitHello, AwaitAuth, AwaitSummary, AwaitHistory, AwaitWants}
      modifies `out, `phase
      ensures went ==> RunStep(engine.blobs.sha, old(State()), c) == Some(State())
      ensures !went ==> State() == old(State()) && CannotGo(engine.blobs.sha, old(State()))
    {
      hide RunStep, CannotGo;
      RestCases(engine.blobs.sha, State());
      if phase == Unstarted {
        SayAndGo(hello, AwaitHello);
        went := true;
      } else if phase == Transferring {
        went := toServe == [] && outgoing.None? && drained && vaultId.Some?;
        if went {
          SayAndGo(SyncComplete(vaultId.value), AwaitComplete);
        }
      } else {
        went := phase == AwaitComplete && peerCompleted && transfers.ready == [];
        if went {
          FinishSession();
        }
      }
    }

    method FinishSession()
      modifies `phase
      ensures State() == old(State()).(phase := Finished)
    {
      phase := Finished;
    }

    // ---- serving -----------------------------------------------------------------

    method StartNext(chunkBytes: nat)
      requires Valid() && chunkBytes > 0 && phase == Transferring && outgoing.None? && toServe != []
      modifies `phase, `out, `toServe, `transferSeq, `outgoing
      ensures Valid() && Some(State()) == ServeStep(chunkBytes, old(State()))
    {
      hide ServeStep, Wellformed;
      var id := toServe[0];
      if id in engine.metadata.rows && engine.metadata.rows[id].hash in engine.blobs.files {
        Announce(chunkBytes);
      } else {
        SkipsOrFails(chunkBytes, State());
        SkipOrFail(id !in engine.metadata.rows);
      }
    }

    method Announce(chunkBytes: nat)
      requires chunkBytes > 0 && phase == Transferring && outgoing.None? && toServe != []
      requires toServe[0] in engine.metadata.rows && engine.metadata.rows[toServe[0]].hash in engine.blobs.files
      modifies `out, `toServe, `transferSeq, `outgoing
      ensures Some(State()) == ServeStep(chunkBytes, old(State()))
    {
      hide ServeStep, SlicesOf, HeaderFor, Prepared;
      ghost var before := State();
      var h, slices := Prepare(chunkBytes);
      Begin(h, slices);
      assert State() == before.(out := out, toServe := toServe, transferSeq := transferSeq, outgoing := outgoing);
      AnnounceIs(chunkBytes, before, State(), h, slices);
    }

    /** What the next transfer will be: its header and its cut bytes. */
    method Prepare(chunkBytes: nat) returns (h: Header, slices: seq<Bytes>)
      requires chunkBytes > 0 && toServe != []
      requires toServe[0] in engine.metadata.rows && engine.metadata.rows[toServe[0]].hash in engine.blobs.files
      ensures Prepared(chunkBytes, State(), h, slices)
    {
      hide SlicesOf, HeaderFor;
      var id := toServe[0];
      slices := SlicesOf(engine.blobs.files[engine.metadata.rows[id].hash], chunkBytes);
      h := HeaderOf(id, |slices|);
    }

    /** A revision that is not held is passed over; one whose bytes are gone ends the session. */
    method SkipOrFail(skip: bool)
      requires toServe != []
      modifies `phase, `toServe
      ensures toServe == if skip then old(toServe[1..]) else old(toServe)
      ensures phase == if skip then old(phase) else Failed
    {
      if skip {
        toServe := toServe[1..];
      } else {
        phase := Failed;
      }
    }

    method HeaderOf(id: RevisionId, totalChunks: nat) returns (h: Header)
      requires id in engine.metadata.rows
      ensures h == HeaderFor(engine.metadata.Contents(), id, transferSeq + 1, totalChunks)
    {
      var row := engine.metadata.rows[id];
      var parents := if id in engine.metadata.parents then engine.metadata.parents[id] else [];
      h := Header(transferSeq + 1, row.vaultId, id, row.hash, row.sizeBytes, parents, totalChunks, row.message);
    }

    method Begin(h: Header, slices: seq<Bytes>)
      requires toServe != []
      modifies `out, `toServe, `transferSeq, `outgoing
      ensures out == old(out) + [RevisionHeader(h)] && toServe == old(toServe[1..]) && transferSeq == old(transferSeq) + 1
      ensures outgoing == Some(Outgoing(old(toServe[0]), transferSeq, slices, 0, None))
    {
      out, transferSeq := out + [RevisionHeader(h)], transferSeq + 1;
      outgoing, toServe := Some(Outgoing(toServe[0], transferSeq, slices, 0, None)), toServe[1..];
    }
  }

  ghost predicate Prepared(chunkBytes: nat, s: Side, h: Header, slices: seq<Bytes>) {
    && chunkBytes > 0 && s.toServe != []
    && s.toServe[0] in s.disk.tables.rows && s.disk.tables.rows[s.toServe[0]].hash in s.disk.blobs
    && slices == SlicesOf(s.disk.blobs[s.disk.tables.rows[s.toServe[0]].hash], chunkBytes)
    && h == HeaderFor(s.disk.tables, s.toServe[0], s.transferSeq + 1, |slices|)
  }

  lemma AnnounceIs(chunkBytes: nat, s: Side, s': Side, h: Header, slices: seq<Bytes>)
    requires Prepared(chunkBytes, s, h, slices) && s.phase == Transferring && s.outgoing.None?
    requires s' == s.(out := s.out + [RevisionHeader(h)], toServe := s.toServe[1..], transferSeq := s.transferSeq + 1,
                      outgoing := Some(Outgoing(s.toServe[0], s.transferSeq + 1, slices, 0, None)))
    ensures Some(s') == ServeStep(chunkBytes, s)
  {
    hide SlicesOf, HeaderFor, ServeStep;
    ServeStarts(chunkBytes, s, h, slices);
  }

  ghost predicate CannotGo(sha: Digest, s: Side) {
    forall c :: RunStep(sha, s, c).None?
  }

  /** What `Consume` comes to, phase by phase; each looks at its own part of the choice. */
  lemma ConsumeCases(sha: Digest, s: Side, m: Message, c: Choice)
    requires Awaited(s.phase, m)
    ensures match s.phase
      case AwaitHello => Consume(sha, s, m, c) == Some(ConsumeHello(s, m, Choice(c.decodes, true, c.signature, [], [])))
      case AwaitAuth => Consume(sha, s, m, c) == Some(ConsumeAuth(s, Choice(c.decodes, c.trusted, "", [], [])))
      case AwaitSummary => Consume(sha, s, m, c) == ConsumeSummary(sha, s, m, Choice(true, true, "", c.history, []))
      case AwaitHistory => Consume(sha, s, m, c)
        == if s.vaultId.None? then Some(Fail(s)) else ConsumeHistory(s, m, Choice(true, true, "", [], c.wanted))
      case AwaitWants => Consume(sha, s, m, c) == Some(ConsumeWants(s, m))
  {
    hide IsHistory, AcceptableHistory, IsWantList, VaultGraph, HistoryGraph, Replay, AdoptVault, SummaryOf;
  }

  lemma AwaitCases(sha: Digest, s: Side)
    requires s.phase in {AwaitHello, AwaitAuth, AwaitSummary, AwaitHistory, AwaitWants}
    ensures s.inboxFailed ==> forall c :: RunStep(sha, s, c) == Some(Fail(s))
    ensures !s.inboxFailed && FirstAwaited(s.phase, s.inbox).None? ==> CannotGo(sha, s)
    ensures !s.inboxFailed && FirstAwaited(s.phase, s.inbox).Some? ==>
      var i := FirstAwaited(s.phase, s.inbox).value;
      forall c :: RunStep(sha, s, c) == Consume(sha, s.(inbox := s.inbox[..i] + s.inbox[i + 1..]), s.inbox[i], c)
  {
    hide Consume, FirstAwaited;
  }

  lemma RestCases(sha: Digest, s: Side)
    ensures s.phase == Unstarted ==> forall c :: RunStep(sha, s, c) == Some(Send(s, s.hello).(phase := AwaitHello))
    ensures s.phase == Transferring ==>
      if s.toServe == [] && s.outgoing.None? && s.drained && s.vaultId.Some?
      then forall c :: RunStep(sha, s, c) == Some(Send(s, SyncComplete(s.vaultId.value)).(phase := AwaitComplete)) else CannotGo(sha, s)
    ensures s.phase == AwaitComplete ==>
      if s.peerCompleted && s.receiver.ready == [] then forall c :: RunStep(sha, s, c) == Some(s.(phase := Finished))
      else CannotGo(sha, s)
    ensures s.phase == Finished || s.phase == Failed ==> CannotGo(sha, s)
  {
    hide Consume, FirstAwaited;
  }

  /** Neither side has a vault, or each has another one. */
  predicate SummaryUnusable(mine: Option<VaultId>, m: Message)
    requires m.VaultSummary?
  {
    if mine.None? then m.vaultId == EMPTY_VAULT_ID else m.vaultId != EMPTY_VAULT_ID && m.vaultId != mine.value
  }

  lemma SummaryMet(sha: Digest, s: Side, m: Message, v: VaultId, d: Disk, es: seq<HistoryEntry>)
    requires m.VaultSummary? && v == (if s.vaultId.Some? then s.vaultId.value else m.vaultId) && IsHistory(d.tables, v, es)
    requires !SummaryUnusable(s.vaultId, m)
    requires d == if s.vaultId.Some? then s.disk else Replay(sha, s.disk, AdoptVault(s.disk.tables, v, m.vaultName).steps)
    ensures ConsumeSummary(sha, s, m, Choice(true, true, "", es, []))
         == Some(Send(s.(disk := d, vaultId := Some(v), remoteHead := m.headRevisionId), HistorySummary(v, es)).(phase := AwaitHistory))
  {
    hide IsHistory, Replay, AdoptVault;
  }

  lemma SummaryRefused(sha: Digest, s: Side, m: Message)
    requires m.VaultSummary? && SummaryUnusable(s.vaultId, m)
    ensures ConsumeSummary(sha, s, m, Choice(true, true, "", [], [])) == Some(Fail(s))
  {
    hide IsHistory, Replay, AdoptVault;
  }

  /** What `computeWants` may answer. */
  ghost predicate Wants(s: Side, g: Graph, list: seq<RevisionId>) {
    s.vaultId.Some?
    && if s.remoteHead.None? then list == []
       else IsWantList(g, s.remoteHead.value, VaultGraph(s.disk.tables, s.vaultId.value).Keys, list)
  }

  lemma HistoryRefused(s: Side, m: Message)
    requires m.HistorySummary? && s.vaultId.Some? && !AcceptableHistory(m.revisions)
    ensures ConsumeHistory(s, m, Choice(true, true, "", [], [])) == Some(Fail(s))
  {
    hide IsWantList, AcceptableHistory;
  }

  lemma HistoryMet(s: Side, m: Message, list: seq<RevisionId>)
    requires m.HistorySummary? && AcceptableHistory(m.revisions) && Wants(s, HistoryGraph(m.revisions), list)
    ensures s.vaultId.Some?
    ensures ConsumeHistory(s, m, Choice(true, true, "", [], list)) == Some(s.(out := s.out + [WantRevisions(s.vaultId.value, list)],
      phase := AwaitWants, remoteGraph := HistoryGraph(m.revisions), wanted := list, expected := SeqToSet(list)))
  {
    hide IsWantList, AcceptableHistory, HistoryGraph, VaultGraph;
  }

  lemma SkipsOrFails(chunkBytes: nat, s: Side)
    requires chunkBytes > 0 && s.phase == Transferring && s.outgoing.None? && s.toServe != []
    ensures var id := s.toServe[0];
      && (id !in s.disk.tables.rows ==> ServeStep(chunkBytes, s) == Some(s.(toServe := s.toServe[1..])))
      && (id in s.disk.tables.rows && s.disk.tables.rows[id].hash !in s.disk.blobs ==> ServeStep(chunkBytes, s) == Some(Fail(s)))
  {
    hide SlicesOf, HeaderFor;
  }

  /** `OnControl`, case by case. */
  lemma ControlCases(s: Side, m: Message)
    ensures match m
      case RevisionHeader(h) =>
        OnControl(s, m) == if s.remote.None? then s.(inboxFailed := true) else Absorb(s, OnHeader(s.receiver, h))
      case RevisionAck(id, accepted, _) => OnControl(s, m) == OnAck(s, id, accepted)
      case SyncComplete(_) => OnControl(s, m) == Notify(s.(peerCompleted := true))
      case TransferCancel(seqNo, _) => OnControl(s, m) == OnCancel(s, seqNo)
      case Error(_, _) => OnControl(s, m) == s.(inboxFailed := true)
      case _ => OnControl(s, m) == s.(inbox := s.inbox + [m])
  {
    hide OnHeader, OnAck, OnCancel, Absorb, Notify;
  }

  /** Absorbing replaces the receiver, whatever it was. */
  lemma AbsorbIgnores(s: Side, r: Receiver)
    ensures Absorb(s.(receiver := r), r) == Absorb(s, r)
  {
    hide RejectAll;
    assert s.(receiver := r).(receiver := r.(refused := [])) == s.(receiver := r.(refused := []));
  }

  /** Answering for refused revisions leaves the transfers alone. */
  lemma AbsorbedWellformed(s: Side, r: Receiver)
    requires Wellformed(r)
    ensures Wellformed(Absorb(s, r).receiver)
  {
    hide Wellformed;
    RejectAllFrame(s.(receiver := r.(refused := [])), r.refused);
    RefusedAside(r);
  }

  lemma RefusedAside(r: Receiver)
    requires Wellformed(r)
    ensures Wellformed(r.(refused := []))
  {
  }
}
