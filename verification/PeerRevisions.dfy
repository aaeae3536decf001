/**
 What a verified peer can add to the store. A session ingests under the vault and the parents that the
 peer's header declares, and takes headers it never asked for: so a new row is exactly what some header
 announced, and nothing ties it to the vault of the session or to the list of wanted revisions except
 the peer keeping to them.
 */
module PeerRevisions {
  import opened Basics
  import opened RemoteHistory
  import opened Framing
  import opened Chunks
  import opened Store
  import opened Engine
  import opened EngineRuns
  import opened Messages
  import opened Inbound
  import opened Session
  import opened SingleSession

  // ---- headers heard ---------------------------------------------------------------

  function HeaderOf(e: Event): set<Header> {
    if e.ControlIn? && e.message.RevisionHeader? then {e.message.header} else {}
  }

  /** The headers the peer sent among the first `n` events. */
  function HeadersHeard(es: seq<Event>, n: nat): set<Header>
    requires n <= |es|
  {
    if n == 0 then {} else HeadersHeard(es, n - 1) + HeaderOf(es[n - 1])
  }

  /** Every transfer under way or finished belongs to one of the headers. */
  ghost predicate TransfersOf(r: Receiver, hs: set<Header>) {
    && (forall q :: q in r.assemblers ==> r.assemblers[q].header in hs)
    && (forall i :: 0 <= i < |r.ready| ==> r.ready[i].header in hs)
  }

  lemma FrameOf(r: Receiver, f: ChunkFrame, hs: set<Header>)
    requires TransfersOf(r, hs)
    ensures TransfersOf(OnFrame(r, f), hs)
  {
  }

  lemma {:induction false} ReplayOf(r: Receiver, q: nat, n: nat, hs: set<Header>)
    requires TransfersOf(r, hs) && n <= |r.orphans|
    ensures TransfersOf(ReplayOrphans(r, q, n), hs)
    decreases n
  {
    hide OnFrame;
    if n > 0 {
      if r.orphans[n - 1].transferSeq == q {
        FrameOf(r.(orphans := Without(r.orphans, n - 1)), r.orphans[n - 1], hs);
        ReplayOf(HandOver(r, n - 1), q, n - 1, hs);
      } else {
        ReplayOf(r, q, n - 1, hs);
      }
    }
  }

  lemma HeaderOpens(r: Receiver, h: Header, hs: set<Header>)
    requires TransfersOf(r, hs) && h in hs
    ensures TransfersOf(OnHeader(r, h), hs)
  {
    hide ReplayOrphans;
    if h.totalChunks > 0 {
      ReplayOf(Opened(r, h), h.transferSeq, |r.orphans|, hs);
    }
  }

  lemma ControlOf(s: Side, m: Message, hs: set<Header>)
    requires TransfersOf(s.receiver, hs) && HeaderOf(ControlIn(m)) <= hs
    ensures TransfersOf(OnControl(s, m).receiver, hs) && OnControl(s, m).disk == s.disk
  {
    hide OnHeader, RejectAll;
    OnControlFrame(s, m);
    if m.RevisionHeader? {
      HeaderOpens(s.receiver, m.header, hs);
      var r := OnHeader(s.receiver, m.header);
      RejectAllFrame(s.(receiver := r.(refused := [])), r.refused);
    }
  }

  lemma BulkOf(s: Side, f: ChunkFrame, hs: set<Header>)
    requires TransfersOf(s.receiver, hs)
    ensures TransfersOf(OnBulk(s, f).receiver, hs) && OnBulk(s, f).disk == s.disk
  {
    hide OnFrame, RejectAll;
    FrameOf(s.receiver, f, hs);
    var r := OnFrame(s.receiver, f);
    RejectAllFrame(s.(receiver := r.(refused := [])), r.refused);
  }

  lemma ServeLeaves(chunkBytes: nat, s: Side)
    requires chunkBytes > 0 && ServeStep(chunkBytes, s).Some?
    ensures var s' := ServeStep(chunkBytes, s).value; s'.receiver == s.receiver && s'.disk == s.disk
  {
    hide SlicesOf, HeaderFor;
  }

  lemma IngestPops(sha: Digest, s: Side)
    requires IngestStep(sha, s).Some?
    ensures s.remote.Some? && s.receiver.ready != []
    ensures var s' := IngestStep(sha, s).value;
      && s'.receiver == s.receiver.(ready := s.receiver.ready[1..])
      && s'.disk == Replay(sha, s.disk, IngestReceivedRevision(sha, s.disk.tables, InputOf(s, s.receiver.ready[0])).steps)
  {
    hide Replay, IngestReceivedRevision, InputOf;
  }

  // ---- new rows are announced rows -------------------------------------------------

  /** The stored revision is the announced one: its vault, hash, message and parents are the header's. */
  ghost predicate Announces(h: Header, t: Tables, id: RevisionId)
    requires id in t.rows
  {
    && h.revisionId == id && t.rows[id].vaultId == h.vaultId && t.rows[id].hash == h.hash && t.rows[id].message == h.message
    && SeqToSet(ParentsOf(t, id)) == SeqToSet(h.parentIds)
  }

  ghost predicate NewRowsAnnounced(t: Tables, u: Tables, hs: set<Header>) {
    forall id :: id in u.rows && id !in t.rows ==> exists h :: h in hs && Announces(h, u, id)
  }

  lemma SameRowsAnnounced(t: Tables, u: Tables, u': Tables, hs: set<Header>, hs': set<Header>)
    requires NewRowsAnnounced(t, u, hs) && u'.rows == u.rows && u'.parents == u.parents && hs <= hs'
    ensures NewRowsAnnounced(t, u', hs')
  {
    forall id | id in u'.rows && id !in t.rows
      ensures exists h :: h in hs' && Announces(h, u', id)
    {
      var h :| h in hs && Announces(h, u, id);
      assert h in hs' && Announces(h, u', id);
    }
  }

  lemma MoreHeaders(r: Receiver, hs: set<Header>, hs': set<Header>)
    requires TransfersOf(r, hs) && hs <= hs'
    ensures TransfersOf(r, hs')
  {
  }

  /** A stored input is announced by the header it came with. */
  lemma IngestAnnounced(sha: Digest, t: Tables, s: Side, hs: set<Header>)
    requires Sound(sha, s.disk) && s.remote.Some? && s.receiver.ready != [] && TransfersOf(s.receiver, hs)
    requires NewRowsAnnounced(t, s.disk.tables, hs)
    ensures NewRowsAnnounced(t,
      Replay(sha, s.disk, IngestReceivedRevision(sha, s.disk.tables, InputOf(s, s.receiver.ready[0])).steps).tables, hs)
  {
    hide Sound, Replay, IngestReceivedRevision;
    var d := s.receiver.ready[0];
    var i := InputOf(s, d);
    var e := IngestReceivedRevision(sha, s.disk.tables, i);
    IngestTables(sha, s.disk, i);
    if e.outcome.Stored? {
      IngestIsVerbatim(sha, s.disk, i);
      AddedIsAnnounced(t, s.disk.tables, Replay(sha, s.disk, e.steps).tables, i, d.header, hs);
    }
  }

  lemma AddedIsAnnounced(t: Tables, u: Tables, u': Tables, i: ReceivedInput, h: Header, hs: set<Header>)
    requires NewRowsAnnounced(t, u, hs) && h in hs && HistoryKept(u, u') && u'.rows.Keys == u.rows.Keys + {i.revisionId}
    requires u'.rows[i.revisionId] == RowOf(ReceivedRevision(i))
    requires SeqToSet(ParentsOf(u', i.revisionId)) == SeqToSet(i.declaredParentIds)
    requires i.revisionId == h.revisionId && i.vaultId == h.vaultId && i.declaredHash == h.hash && i.message == h.message
    requires i.declaredParentIds == h.parentIds
    ensures NewRowsAnnounced(t, u', hs)
  {
    forall id | id in u'.rows && id !in t.rows
      ensures exists x :: x in hs && Announces(x, u', id)
    {
      if id in u.rows {
        var x :| x in hs && Announces(x, u, id);
        assert Announces(x, u', id);
      } else {
        assert Announces(h, u', id);
      }
    }
  }

  ghost predicate FromHeaders(d: Disk, s: Side, hs: set<Header>) {
    TransfersOf(s.receiver, hs) && NewRowsAnnounced(d.tables, s.disk.tables, hs)
  }

  lemma RunAnnounced(sha: Digest, d: Disk, s: Side, c: Choice, hs: set<Header>)
    requires RunStep(sha, s, c).Some? && s.hello.Hello? && FromHeaders(d, s, hs)
    ensures FromHeaders(d, RunStep(sha, s, c).value, hs)
  {
    hide RunStep, TransfersOf, NewRowsAnnounced, SaysNoTransfer, Replay, AdoptVault;
    RunStepFrame(sha, s, c);
    RunStepDisk(sha, s, c);
    var s' := RunStep(sha, s, c).value;
    if s'.disk != s.disk {
      var v, name :| s'.disk == Replay(sha, s.disk, AdoptVault(s.disk.tables, v, name).steps);
      AdoptLeavesRows(sha, s.disk, v, name);
    }
    SameRowsAnnounced(d.tables, s.disk.tables, s'.disk.tables, hs, hs);
  }

  lemma {:induction false} AdoptLeavesRows(sha: Digest, d: Disk, v: VaultId, name: string)
    ensures var t := Replay(sha, d, AdoptVault(d.tables, v, name).steps).tables; t.rows == d.tables.rows && t.parents == d.tables.parents
  {
    if v !in d.tables.vaults {
      var u := UpsertVault(v, Vault(name, None));
      OneStep(sha, d, Commit([u]));
      RunStmtsAppend(d.tables, [], u);
      assert [] + [u] == [u];
    }
  }

  lemma EventAnnounced(sha: Digest, chunkBytes: nat, d: Disk, s: Side, e: Event, hs: set<Header>)
    requires chunkBytes > 0 && AfterEvent(sha, chunkBytes, s, e).Some? && s.hello.Hello? && Sound(sha, s.disk)
    requires FromHeaders(d, s, hs)
    ensures FromHeaders(d, AfterEvent(sha, chunkBytes, s, e).value, hs + HeaderOf(e))
  {
    hide OnControl, OnBulk, RunStep, ServeStep, IngestStep, Sound, IngestReceivedRevision, InputOf, Replay, TransfersOf, NewRowsAnnounced;
    var hs' := hs + HeaderOf(e);
    MoreHeaders(s.receiver, hs, hs');
    SameRowsAnnounced(d.tables, s.disk.tables, s.disk.tables, hs, hs');
    match e
    case ControlIn(m) => ControlOf(s, m, hs');
    case BulkIn(f) => BulkOf(s, f, hs');
    case RunGoes(c) => RunAnnounced(sha, d, s, c, hs');
    case Serves => ServeLeaves(chunkBytes, s);
    case Ingests =>
      IngestPops(sha, s);
      IngestAnnounced(sha, d.tables, s, hs');
      ShorterReady(s.receiver, hs');
  }

  lemma ShorterReady(r: Receiver, hs: set<Header>)
    requires TransfersOf(r, hs) && r.ready != []
    ensures TransfersOf(r.(ready := r.ready[1..]), hs)
  {
    assert forall i :: 0 <= i < |r.ready[1..]| ==> r.ready[1..][i] == r.ready[i + 1];
  }

  /** Whatever the peer sends, at every moment: every new row is what one of the headers heard so far announced. */
  lemma {:induction false} NewRowsWereAnnounced(sha: Digest, chunkBytes: nat, hello: Message, vaultId: Option<VaultId>, d: Disk,
      ss: seq<Side>, es: seq<Event>, n: nat)
    requires chunkBytes > 0 && IsLife(sha, chunkBytes, hello, vaultId, d, ss, es) && n <= |es|
    requires SizeFaithful(sha) && Sound(sha, d)
    ensures FromHeaders(d, ss[n], HeadersHeard(es, n))
  {
    hide AfterEvent, Guarded, StoreKept, Sound, SizeFaithful, TransfersOf, NewRowsAnnounced, HeaderOf;
    if n == 0 {
      FreshFromHeaders(d, ss[0]);
    } else {
      NewRowsWereAnnounced(sha, chunkBytes, hello, vaultId, d, ss, es, n - 1);
      LifeGuarded(sha, chunkBytes, hello, vaultId, d, ss, es, n - 1);
      StoreKeptAlways(sha, chunkBytes, hello, vaultId, d, ss, es, n - 1);
      SoundAndGreeted(sha, d, ss[n - 1]);
      assert AfterEvent(sha, chunkBytes, ss[n - 1], es[n - 1]) == Some(ss[n - 1 + 1]);
      EventAnnounced(sha, chunkBytes, d, ss[n - 1], es[n - 1], HeadersHeard(es, n - 1));
    }
  }

  lemma FreshFromHeaders(d: Disk, s: Side)
    requires s.receiver == IDLE && s.disk == d
    ensures FromHeaders(d, s, {})
  {
  }

  lemma SoundAndGreeted(sha: Digest, d: Disk, s: Side)
    requires Guarded(s) && StoreKept(sha, d, s)
    ensures Sound(sha, s.disk) && s.hello.Hello?
  {
    hide Sound;
  }

  /** So if every header heard was of the vault and on the list, every new row is of the vault and on the list. */
  lemma {:induction false} KeepingToTheList(sha: Digest, chunkBytes: nat, hello: Message, vaultId: Option<VaultId>, d: Disk,
      ss: seq<Side>, es: seq<Event>, n: nat, v: VaultId, wanted: set<RevisionId>)
    requires chunkBytes > 0 && IsLife(sha, chunkBytes, hello, vaultId, d, ss, es) && n <= |es|
    requires SizeFaithful(sha) && Sound(sha, d)
    requires forall h :: h in HeadersHeard(es, n) ==> h.vaultId == v && h.revisionId in wanted
    ensures var t := ss[n].disk.tables; forall id :: id in t.rows && id !in d.tables.rows ==> t.rows[id].vaultId == v && id in wanted
  {
    hide IsLife, Sound, SizeFaithful, HeadersHeard, TransfersOf;
    NewRowsWereAnnounced(sha, chunkBytes, hello, vaultId, d, ss, es, n);
    NowAnnounced(sha, chunkBytes, hello, vaultId, d, ss, es);
    var t := ss[n].disk.tables;
    forall id | id in t.rows && id !in d.tables.rows
      ensures t.rows[id].vaultId == v && id in wanted
    {
      var h :| h in HeadersHeard(es, n) && Announces(h, t, id);
    }
  }

  lemma NowAnnounced(sha: Digest, chunkBytes: nat, hello: Message, vaultId: Option<VaultId>, d: Disk, ss: seq<Side>, es: seq<Event>)
    requires chunkBytes > 0 && IsLife(sha, chunkBytes, hello, vaultId, d, ss, es)
    ensures |ss| == |es| + 1
  {
  }

  // ---- nothing else ties them ------------------------------------------------------

  /** The revision the peer is about to push: one chunk, under any vault the device knows, resting on stored revisions. */
  function PushedHeader(sha: Digest, u: VaultId, id: RevisionId, parentIds: seq<RevisionId>, bytes: Bytes): Header {
    Header(1, u, id, sha(bytes), |bytes|, parentIds, 1, None)
  }

  /** A verified opening, then the header, its only frame and the ingest; the summary has not even come. */
  function Pushing(hello: Message, sha: Digest, u: VaultId, id: RevisionId, parentIds: seq<RevisionId>, bytes: Bytes): seq<Event> {
    var go := RunGoes(Choice(true, true, "", [], []));
    [go, ControlIn(hello), go, ControlIn(Auth("")), go,
     ControlIn(RevisionHeader(PushedHeader(sha, u, id, parentIds, bytes))), BulkIn(ChunkFrame(1, 0, bytes)), Ingests]
  }

  /** A side during the opening. */
  function Opening(hello: Message, v: VaultId, d: Disk, sent: seq<Message>, phase: Phase, inbox: seq<Message>, peer: Option<DeviceId>,
      known: Option<DeviceId>): Side
  {
    FreshSide(hello, Some(v), d).(out := sent, phase := phase, inbox := inbox, helloFrom := peer, remote := known)
  }

  /** The five opening events, to a verified peer. */
  lemma OpeningGoes(sha: Digest, chunkBytes: nat, hello: Message, v: VaultId, d: Disk) returns (ss: seq<Side>)
    requires chunkBytes > 0 && hello.Hello? && hello.protocolVersion == PROTOCOL_VERSION && v in d.tables.vaults
    ensures |ss| == 6 && ss[0] == FreshSide(hello, Some(v), d)
    ensures var go := RunGoes(Choice(true, true, "", [], []));
      && AfterEvent(sha, chunkBytes, ss[0], go) == Some(ss[1])
      && AfterEvent(sha, chunkBytes, ss[1], ControlIn(hello)) == Some(ss[2])
      && AfterEvent(sha, chunkBytes, ss[2], go) == Some(ss[3])
      && AfterEvent(sha, chunkBytes, ss[3], ControlIn(Auth(""))) == Some(ss[4])
      && AfterEvent(sha, chunkBytes, ss[4], go) == Some(ss[5])
    ensures ss[5].remote.Some? && ss[5].disk == d && ss[5].wanted == [] && ss[5].vaultId == Some(v) && ss[5].receiver == IDLE
  {
    hide SummaryOf, OnHeader, OnFrame;
    var c := Choice(true, true, "", [], []);
    var a := Opening(hello, v, d, [hello], AwaitHello, [], None, None);
    var b := Opening(hello, v, d, [hello], AwaitHello, [hello], None, None);
    var e := Opening(hello, v, d, [hello] + [Auth("")], AwaitAuth, [], Some(hello.deviceId), None);
    var f := Opening(hello, v, d, [hello] + [Auth("")], AwaitAuth, [Auth("")], Some(hello.deviceId), None);
    var g := Opening(hello, v, d, [hello] + [Auth("")] + [SummaryOf(f.(remote := f.helloFrom))], AwaitSummary, [], Some(hello.deviceId), Some(hello.deviceId));
    assert FreshSide(hello, Some(v), d).out + [hello] == [hello];
    assert RunStep(sha, FreshSide(hello, Some(v), d), c) == Some(a);
    assert b == OnControl(a, hello);
    assert FirstAwaited(AwaitHello, b.inbox) == Some(0);
    assert b.inbox[..0] + b.inbox[1..] == [];
    assert RunStep(sha, b, c) == Some(e);
    assert f == OnControl(e, Auth(""));
    assert FirstAwaited(AwaitAuth, f.inbox) == Some(0);
    assert f.inbox[..0] + f.inbox[1..] == [];
    SummaryLooksAtStore(f);
    assert RunStep(sha, f, c) == Some(g);
    ss := [FreshSide(hello, Some(v), d), a, b, e, f, g];
  }

  lemma SummaryLooksAtStore(f: Side)
    ensures SummaryOf(f.(remote := f.helloFrom)) == SummaryOf(f) && SummaryOf(f.(inbox := [])) == SummaryOf(f)
  {
    hide VaultGraph;
  }

  /** The header and its one frame make a finished transfer. */
  lemma PushCompletes(h: Header, bytes: Bytes)
    requires h.transferSeq == 1 && h.totalChunks == 1 && h.sizeBytes == |bytes|
    ensures OnFrame(OnHeader(IDLE, h), ChunkFrame(1, 0, bytes)) == Receiver(map[], [], [Delivery(h, bytes)], [])
    ensures OnHeader(IDLE, h).refused == []
  {
    var r := OnHeader(IDLE, h);
    var a := Assembly(1, |bytes|, map[], 0);
    assert r == Opened(IDLE, h) && r.assemblers == map[1 := Incoming(h, a)];
    var b := a.Accept(ChunkFrame(1, 0, bytes));
    assert b.chunks == map[0 := bytes] && |b.chunks| == 1 && b.IsComplete();
    assert Joined(b.chunks, 0) == [] && Joined(b.chunks, 1) == bytes;
    assert r.assemblers - {1} == map[];
  }

  /** The two events that bring the revision in. */
  lemma PushGoes(s: Side, h: Header, bytes: Bytes) returns (s1: Side, s2: Side)
    requires s.remote.Some? && s.receiver == IDLE && h.transferSeq == 1 && h.totalChunks == 1 && h.sizeBytes == |bytes|
    ensures OnControl(s, RevisionHeader(h)) == s1 && OnBulk(s1, ChunkFrame(1, 0, bytes)) == s2
    ensures s2 == s.(receiver := Receiver(map[], [], [Delivery(h, bytes)], []))
  {
    hide OnHeader, OnFrame;
    PushCompletes(h, bytes);
    s1 := OnControl(s, RevisionHeader(h));
    s2 := OnBulk(s1, ChunkFrame(1, 0, bytes));
  }

  /**
   Being verified is enough: before anything was asked for, the peer can add a revision of its choice to
   any vault the device knows, on top of any stored revisions of any vault, while the session is about
   another vault.
   */
  lemma VerifiedPeerCanAdd(sha: Digest, chunkBytes: nat, hello: Message, v: VaultId, d: Disk, u: VaultId, id: RevisionId,
      parentIds: seq<RevisionId>, bytes: Bytes) returns (ss: seq<Side>)
    requires chunkBytes > 0 && hello.Hello? && hello.protocolVersion == PROTOCOL_VERSION && Sound(sha, d)
    requires v in d.tables.vaults && u in d.tables.vaults && id !in d.tables.rows
    requires forall p :: p in parentIds ==> p in d.tables.rows
    ensures IsLife(sha, chunkBytes, hello, Some(v), d, ss, Pushing(hello, sha, u, id, parentIds, bytes))
    ensures ss[8].wanted == [] && ss[8].vaultId == Some(v)
    ensures id in ss[8].disk.tables.rows && ss[8].disk.tables.rows[id].vaultId == u
    ensures SeqToSet(ParentsOf(ss[8].disk.tables, id)) == SeqToSet(parentIds)
  {
    hide OnControl, OnBulk, RunStep, IngestStep, Sound, Replay, IngestReceivedRevision;
    var h := PushedHeader(sha, u, id, parentIds, bytes);
    var opening := OpeningGoes(sha, chunkBytes, hello, v, d);
    var s1, s2 := PushGoes(opening[5], h, bytes);
    var s3 := PushIsIngested(sha, s2, h, bytes);
    ss := opening + [s1, s2, s3];
    AllNine(sha, chunkBytes, hello, v, d, ss, Pushing(hello, sha, u, id, parentIds, bytes));
  }

  lemma AllNine(sha: Digest, chunkBytes: nat, hello: Message, v: VaultId, d: Disk, ss: seq<Side>, es: seq<Event>)
    requires chunkBytes > 0 && |ss| == 9 && |es| == 8 && ss[0] == FreshSide(hello, Some(v), d) && hello.Hello?
    requires AfterEvent(sha, chunkBytes, ss[0], es[0]) == Some(ss[1]) && AfterEvent(sha, chunkBytes, ss[1], es[1]) == Some(ss[2])
    requires AfterEvent(sha, chunkBytes, ss[2], es[2]) == Some(ss[3]) && AfterEvent(sha, chunkBytes, ss[3], es[3]) == Some(ss[4])
    requires AfterEvent(sha, chunkBytes, ss[4], es[4]) == Some(ss[5]) && AfterEvent(sha, chunkBytes, ss[5], es[5]) == Some(ss[6])
    requires AfterEvent(sha, chunkBytes, ss[6], es[6]) == Some(ss[7]) && AfterEvent(sha, chunkBytes, ss[7], es[7]) == Some(ss[8])
    ensures IsLife(sha, chunkBytes, hello, Some(v), d, ss, es)
  {
    hide AfterEvent, FreshSide;
  }

  lemma PushIsIngested(sha: Digest, s: Side, h: Header, bytes: Bytes) returns (s': Side)
    requires s.remote.Some? && s.receiver == Receiver(map[], [], [Delivery(h, bytes)], []) && Sound(sha, s.disk)
    requires h.hash == sha(bytes) && h.revisionId !in s.disk.tables.rows && h.vaultId in s.disk.tables.vaults
    requires forall p :: p in h.parentIds ==> p in s.disk.tables.rows
    ensures IngestStep(sha, s) == Some(s') && s'.wanted == s.wanted && s'.vaultId == s.vaultId
    ensures h.revisionId in s'.disk.tables.rows && s'.disk.tables.rows[h.revisionId].vaultId == h.vaultId
    ensures SeqToSet(ParentsOf(s'.disk.tables, h.revisionId)) == SeqToSet(h.parentIds)
  {
    hide Sound, Replay, SaveStmts, Autocommit;
    var i := InputOf(s, s.receiver.ready[0]);
    assert IngestReceivedRevision(sha, s.disk.tables, i).outcome.Stored?;
    IngestIsVerbatim(sha, s.disk, i);
    s' := IngestStep(sha, s).value;
  }
}
