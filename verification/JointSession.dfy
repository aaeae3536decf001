/**
 Two devices in one session. Each runs the same side machine; what one sends, the other gets in
 order on each of the two channels, whenever the scheduler delivers it. A channel is the log of
 everything sent and how far the other side has read.
 */
module JointSession {
  import opened Basics
  import opened Reachability
  import opened RemoteHistory
  import opened Framing
  import opened Chunks
  import opened Store
  import opened Engine
  import opened EngineRuns
  import opened Messages
  import opened Inbound
  import opened Session
  import opened TransferLink

  /** The digest, the chunk size, the vault both are about, and the two disks at the start. */
  datatype Setting = Setting(sha: Digest, chunkBytes: nat, v: VaultId, a: Disk, b: Disk)

  datatype World = World(a: Side, b: Side, aCtl: nat, bCtl: nat, aBulk: nat, bBulk: nat)

  function Swapped(w: World): World {
    World(w.b, w.a, w.bCtl, w.aCtl, w.bBulk, w.aBulk)
  }

  function SwappedSetting(st: Setting): Setting {
    st.(a := st.b, b := st.a)
  }

  // ---- what the devices start from ---------------------------------------------

  /** Shared revisions are the same revision on both devices. */
  ghost predicate RowsAgree(t: Tables, u: Tables) {
    forall id :: id in t.rows && id in u.rows ==>
      && t.rows[id].vaultId == u.rows[id].vaultId
      && t.rows[id].hash == u.rows[id].hash
      && t.rows[id].sizeBytes == u.rows[id].sizeBytes
      && SeqToSet(ParentsOf(t, id)) == SeqToSet(ParentsOf(u, id))
  }

  /** The vault's revisions rest on revisions of the vault. */
  ghost predicate VaultClosed(t: Tables, v: VaultId) {
    forall c, p :: c in t.rows && t.rows[c].vaultId == v && p in ParentsOf(t, c) ==> p in t.rows && t.rows[p].vaultId == v
  }

  function HeadOf(t: Tables, v: VaultId): Option<RevisionId> {
    if v in t.vaults then t.vaults[v].head else None
  }

  ghost predicate GoodSetting(st: Setting) {
    && st.chunkBytes > 0 && SizeFaithful(st.sha) && st.v != EMPTY_VAULT_ID
    && Sound(st.sha, st.a) && Sound(st.sha, st.b)
    && VaultClosed(st.a.tables, st.v) && VaultClosed(st.b.tables, st.v)
    && RowsAgree(st.a.tables, st.b.tables)
    && (st.v in st.a.tables.vaults || st.v in st.b.tables.vaults)
  }

  ghost predicate HelloOk(m: Message) {
    m.Hello? && m.protocolVersion == PROTOCOL_VERSION
  }

  /** A device that tracks the vault names it; a device without it holds none and will adopt. */
  function StartVault(d: Disk, v: VaultId): Option<VaultId> {
    if v in d.tables.vaults then Some(v) else None
  }

  ghost predicate Initial(st: Setting, w: World) {
    && (exists h :: HelloOk(h) && w.a == FreshSide(h, StartVault(st.a, st.v), st.a))
    && (exists h :: HelloOk(h) && w.b == FreshSide(h, StartVault(st.b, st.v), st.b))
    && w.aCtl == w.bCtl == w.aBulk == w.bBulk == 0
  }

  // ---- steps -------------------------------------------------------------------

  datatype Move = RunMove(choice: Choice) | ServeMove | IngestMove | ControlMove | BulkMove

  /**
   What device A can do next. The peers are honest: keys decode and each trusts the other. Nothing is
   delivered to a side that has not attached its handlers yet.
   */
  ghost function StepA(st: Setting, w: World, m: Move): Option<World>
    requires st.chunkBytes > 0
  {
    match m
    case RunMove(c) =>
      if !c.decodes || !c.trusted then None
      else (match RunStep(st.sha, w.a, c) case None => None case Some(a) => Some(w.(a := a)))
    case ServeMove => (match ServeStep(st.chunkBytes, w.a) case None => None case Some(a) => Some(w.(a := a)))
    case IngestMove => (match IngestStep(st.sha, w.a) case None => None case Some(a) => Some(w.(a := a)))
    case ControlMove =>
      if w.a.phase != Unstarted && w.aCtl < |w.b.out| then Some(w.(a := OnControl(w.a, w.b.out[w.aCtl]), aCtl := w.aCtl + 1)) else None
    case BulkMove =>
      if w.a.phase != Unstarted && w.aBulk < |w.b.bulkOut| then Some(w.(a := OnBulk(w.a, w.b.bulkOut[w.aBulk]), aBulk := w.aBulk + 1)) else None
  }

  datatype Who = DeviceA | DeviceB

  ghost function Step(st: Setting, w: World, who: Who, m: Move): Option<World>
    requires st.chunkBytes > 0
  {
    match who
    case DeviceA => StepA(st, w, m)
    case DeviceB => (match StepA(SwappedSetting(st), Swapped(w), m) case None => None case Some(s) => Some(Swapped(s)))
  }

  // ---- the invariant ---------------------------------------------------------------

  function Rank(p: Phase): nat {
    match p
    case Unstarted => 0
    case AwaitHello => 1
    case AwaitAuth => 2
    case AwaitSummary => 3
    case AwaitHistory => 4
    case AwaitWants => 5
    case Transferring => 6
    case AwaitComplete => 7
    case Finished => 8
    case Failed => 9
  }

  /** How many of the peer's five opening messages the run has consumed. */
  function Consumed(p: Phase): nat {
    var r := Rank(p);
    if r == 0 then 0 else Min(r - 1, 5)
  }

  ghost predicate SummaryFits(t: Tables, v: VaultId, m: Message) {
    && m.VaultSummary? && m.headRevisionId == HeadOf(t, v)
    && m.vaultId == if v in t.vaults then v else EMPTY_VAULT_ID
  }

  /** What a device sends: five opening messages in order, then headers, answers and the completion. */
  ghost predicate OutScript(d: Disk, v: VaultId, x: Side) {
    var r, out := Rank(x.phase), x.out;
    && r <= 8 && |out| >= Min(r, 5) && (r <= 4 ==> |out| == r)
    && (r >= 1 ==> HelloOk(out[0]))
    && (r >= 2 ==> out[1].Auth?)
    && (r >= 3 ==> SummaryFits(d.tables, v, out[2]))
    && (r >= 4 ==> out[3].HistorySummary? && IsHistory(d.tables, v, out[3].revisions))
    && (r >= 5 ==> out[4].WantRevisions? && out[4].revisionIds == x.wanted)
    && (forall i :: 5 <= i < |out| ==> out[i].RevisionHeader? || out[i].RevisionAck? || out[i].SyncComplete?)
  }

  /** The opening messages delivered but not yet consumed wait in the inbox, in order. */
  ghost predicate InboxHolds(x: Side, out: seq<Message>, read: nat) {
    var c := Consumed(x.phase);
    && c <= read <= |out|
    && x.inbox == out[c..Max(c, Min(read, 5))]
  }

  /** The run's own bookkeeping. */
  ghost predicate PhaseFacts(d: Disk, v: VaultId, x: Side) {
    var r := Rank(x.phase);
    && HelloOk(x.hello) && !x.inboxFailed
    && (r >= 2 ==> x.helloFrom.Some?) && (x.remote.Some? <==> r >= 3)
    && (r < 4 ==> x.vaultId == StartVault(d, v)) && (r >= 4 ==> x.vaultId == Some(v))
    && (r < 5 ==> x.wanted == []) && (r < 6 ==> !x.drained && x.sent == [])
    && (r == 6 ==> (x.drained <==> x.expected == {})) && (r >= 7 ==> x.expected == {})
    && (r >= 7 ==> x.toServe == [] && x.outgoing.None?)
    && (r == 8 ==> x.receiver.ready == [])
  }

  /** No head moved; at most the shared vault was adopted, with no head. */
  ghost predicate VaultsSettled(before: Tables, t: Tables, v: VaultId, settled: bool) {
    && (forall u :: u in before.vaults ==> u in t.vaults && t.vaults[u] == before.vaults[u])
    && t.vaults.Keys == before.vaults.Keys + (if settled then {v} else {})
    && (v !in before.vaults && v in t.vaults ==> t.vaults[v].head == None)
  }

  ghost predicate FromPeer(before: Tables, peer: Tables, received: seq<RevisionId>) {
    forall id :: id in received ==> id in peer.rows && id !in before.rows
  }

  /** What the session has done to a store: received revisions were added as the peer has them. */
  ghost predicate StoreFacts(sha: Digest, d: Disk, peer: Disk, v: VaultId, x: Side) {
    var t := x.disk.tables;
    && Sound(sha, x.disk) && HistoryKept(d.tables, t) && t.headEvents == d.tables.headEvents
    && BlobsKept(d, x.disk)
    && t.rows.Keys == d.tables.rows.Keys + SeqToSet(x.received)
    && FromPeer(d.tables, peer.tables, x.received)
    && RowsAgree(t, peer.tables)
    && VaultClosed(t, v)
    && VaultsSettled(d.tables, t, v, Rank(x.phase) >= 4)
    && (Rank(x.phase) < 4 ==> x.disk == d)
  }

  /** The want list a device computes from the peer's advertised head and history. */
  ghost predicate WantFacts(d: Disk, peer: Disk, v: VaultId, wanted: seq<RevisionId>) {
    match HeadOf(peer.tables, v)
    case None => wanted == []
    case Some(head) => IsWantList(VaultGraph(peer.tables, v), head, VaultGraph(d.tables, v).Keys, wanted)
  }

  ghost predicate AfterWants(d: Disk, peer: Disk, v: VaultId, x: Side) {
    Rank(x.phase) >= 5 ==>
      WantFacts(d, peer, v, x.wanted) && (HeadOf(peer.tables, v).Some? ==> x.remoteGraph == VaultGraph(peer.tables, v))
  }

  ghost predicate ExpectedFacts(x: Side) {
    |x.received| <= |x.wanted| && x.expected == SeqToSet(x.wanted[|x.received|..])
  }

  ghost predicate HeadHeard(peer: Disk, v: VaultId, x: Side) {
    Rank(x.phase) >= 4 ==> x.remoteHead == HeadOf(peer.tables, v)
  }

  /** A device has announced completion exactly if the other has heard it or will. */
  ghost predicate CompletionFacts(x: Side, peer: Side, read: nat)
    requires read <= |peer.out|
  {
    Rank(peer.phase) >= 7 <==> x.peerCompleted || HasComplete(peer.out[read..])
  }

  function Active(x: Side): bool {
    Rank(x.phase) >= 6
  }

  function SenderOf(x: Side, ctlRead: nat, bulkRead: nat): SenderView
    requires ctlRead <= |x.out| && bulkRead <= |x.bulkOut|
  {
    SenderView(Active(x), x.sent, x.toServe, x.outgoing, x.transferSeq, x.bulkOut[bulkRead..], Headers(x.out[ctlRead..]))
  }

  function ReceiverOf(y: Side, ctlRead: nat): ReceiverView
    requires ctlRead <= |y.out|
  {
    ReceiverView(y.wanted, y.received, y.receiver, Acks(y.out[ctlRead..]))
  }

  /** Everything the invariant says about device A, and about what it sends. */
  ghost predicate Half(st: Setting, w: World)
    requires st.chunkBytes > 0
  {
    && w.aCtl <= |w.b.out| && w.aBulk <= |w.b.bulkOut| && w.bCtl <= |w.a.out| && w.bBulk <= |w.a.bulkOut|
    && OutScript(st.a, st.v, w.a)
    && InboxHolds(w.a, w.b.out, w.aCtl)
    && PhaseFacts(st.a, st.v, w.a)
    && StoreFacts(st.sha, st.a, st.b, st.v, w.a)
    && AfterWants(st.a, st.b, st.v, w.a)
    && ExpectedFacts(w.a)
    && HeadHeard(st.b, st.v, w.a)
    && CompletionFacts(w.a, w.b, w.aCtl)
    && Link(st.a, st.chunkBytes, SenderOf(w.a, w.bCtl, w.bBulk), ReceiverOf(w.b, w.aCtl))
  }

  ghost predicate Inv(st: Setting, w: World) {
    GoodSetting(st) && Half(st, w) && Half(SwappedSetting(st), Swapped(w))
  }
}
