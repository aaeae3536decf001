/** Ingesting, answering and completing in a joint session; then every step and every run. */
module JointIngest {
  import opened Basics
  import opened Reachability
  import opened RemoteHistory
  import opened Framing
  import opened Chunks
  import opened Store
  import opened Engine
  import opened EngineRuns
  import opened Messages
  import opened Inbound
  import opened TransferConfluence
  import opened Session
  import opened TransferLink
  import opened JointSession
  import opened JointSafety
  import opened JointTransfers

  // ---- what the want list is worth ----------------------------------------------

  /** The advertised head of a sound store, in a vault that rests on itself, has its whole history defined. */
  lemma AdvertisedIsClosed(sha: Digest, d: Disk, v: VaultId, head: RevisionId)
    requires Sound(sha, d) && VaultClosed(d.tables, v) && HeadOf(d.tables, v) == Some(head)
    ensures head in VaultGraph(d.tables, v) && ClosedBelow(VaultGraph(d.tables, v), head)
  {
    hide Acyclic, BlobsGenuine, BlobBacked, KeysResolve, LogsLinked, Reaches;
    var g := VaultGraph(d.tables, v);
    assert Closed(g);
    forall x | Reaches(g, x, head)
      ensures x in g
    {
      ClosedGraphHoldsAncestors(g, x, head);
    }
  }

  /** A wanted revision's parents are held or come before it. */
  lemma WantedParents(sha: Digest, d: Disk, peer: Disk, v: VaultId, wanted: seq<RevisionId>, k: nat)
    requires Sound(sha, peer) && VaultClosed(peer.tables, v) && WantFacts(d, peer, v, wanted) && k < |wanted|
    ensures wanted[k] in peer.tables.rows && wanted[k] !in wanted[k + 1..] && wanted[k] !in wanted[..k]
    ensures forall p :: p in ParentsOf(peer.tables, wanted[k]) ==> p in VaultGraph(d.tables, v) || p in wanted[..k]
  {
    hide Sound, VaultClosed, Reaches;
    var head := HeadOf(peer.tables, v).value;
    var g := VaultGraph(peer.tables, v);
    AdvertisedIsClosed(sha, peer, v, head);
    WantListIngestsInOrder(g, head, VaultGraph(d.tables, v).Keys, wanted, k);
    assert wanted[k] in wanted;
    assert wanted[k] in g;
  }

  // ---- ingesting -----------------------------------------------------------------

  /** The input a delivery of a peer's revision gives. */
  ghost predicate Describes(i: ReceivedInput, peer: Disk, id: RevisionId) {
    && id in peer.tables.rows && peer.tables.rows[id].hash in peer.blobs
    && i.vaultId == peer.tables.rows[id].vaultId && i.revisionId == id && i.declaredHash == peer.tables.rows[id].hash
    && i.declaredParentIds == ParentsOf(peer.tables, id) && i.bytes == peer.blobs[peer.tables.rows[id].hash]
  }

  /** An honest revision whose parents are stored is stored. */
  lemma IngestIsStored(sha: Digest, t: Tables, peer: Disk, i: ReceivedInput)
    requires BlobsGenuine(sha, peer) && Describes(i, peer, i.revisionId)
    requires i.revisionId !in t.rows && i.vaultId in t.vaults
    requires forall p :: p in i.declaredParentIds ==> p in t.rows
    ensures IngestReceivedRevision(sha, t, i).outcome == Stored(i.revisionId)
  {
  }

  lemma {:induction false} IngestKeepsSound(sha: Digest, d: Disk, i: ReceivedInput)
    requires SizeFaithful(sha) && Sound(sha, d)
    ensures Sound(sha, Replay(sha, d, IngestReceivedRevision(sha, d.tables, i).steps))
    ensures BlobsKept(d, Replay(sha, d, IngestReceivedRevision(sha, d.tables, i).steps))
  {
    IngestThroughout(sha, d, i);
    var steps := IngestReceivedRevision(sha, d.tables, i).steps;
    assert steps[..|steps|] == steps;
    BlobsOnlyGrow(sha, d, steps, 0, |steps|);
    assert steps[..0] == [];
    hide Sound, IngestReceivedRevision;
  }

  /** What a verbatim ingest of a peer's revision means for the two histories. */
  lemma VerbatimAgrees(t: Tables, u: Tables, peer: Disk, i: ReceivedInput, v: VaultId)
    requires Describes(i, peer, i.revisionId) && i.vaultId == v && BlobBacked(peer)
    requires HistoryKept(t, u) && u.rows.Keys == t.rows.Keys + {i.revisionId} && i.revisionId !in t.rows
    requires u.rows[i.revisionId] == RowOf(ReceivedRevision(i))
    requires SeqToSet(ParentsOf(u, i.revisionId)) == SeqToSet(i.declaredParentIds)
    requires RowsAgree(t, peer.tables) && VaultClosed(t, v) && VaultClosed(peer.tables, v)
    requires forall p :: p in i.declaredParentIds ==> p in t.rows
    ensures RowsAgree(u, peer.tables) && VaultClosed(u, v)
  {
    forall c, p | c in u.rows && u.rows[c].vaultId == v && p in ParentsOf(u, c)
      ensures p in u.rows && u.rows[p].vaultId == v
    {
      if c == i.revisionId {
        assert p in SeqToSet(ParentsOf(u, c));
        assert p in ParentsOf(peer.tables, c);
      }
    }
  }

  /** A revision of the vault that the vault does not hold is not stored at all: shared revisions agree on their vault. */
  lemma NotHeldNotStored(t: Tables, peer: Tables, v: VaultId, id: RevisionId)
    requires RowsAgree(t, peer) && id in peer.rows && peer.rows[id].vaultId == v && id !in VaultGraph(t, v)
    ensures id !in t.rows
  {
  }

  lemma StoredHere(sha: Digest, d: Disk, peer: Disk, v: VaultId, x: Side)
    requires StoreFacts(sha, d, peer, v, x)
    ensures Sound(sha, x.disk) && RowsAgree(x.disk.tables, peer.tables) && VaultClosed(x.disk.tables, v)
    ensures HistoryKept(d.tables, x.disk.tables) && BlobsKept(d, x.disk)
    ensures forall id :: id in x.disk.tables.rows <==> id in d.tables.rows || id in x.received
    ensures Rank(x.phase) >= 4 ==> v in x.disk.tables.vaults
    ensures forall u :: u in x.disk.tables.vaults ==> u in d.tables.vaults || u == v
  {
    hide Sound, RowsAgree, VaultClosed, HistoryKept, BlobsKept;
    assert forall id :: id in SeqToSet(x.received) <==> id in x.received;
  }

  lemma InvParts(st: Setting, w: World)
    requires Inv(st, w)
    ensures GoodSetting(st) && StoreFacts(st.sha, st.a, st.b, st.v, w.a) && AfterWants(st.a, st.b, st.v, w.a)
    ensures Link(st.b, st.chunkBytes, SenderOf(w.b, w.aCtl, w.aBulk), ReceiverOf(w.a, w.bCtl))
  {
    hide Link, StoreFacts, AfterWants, GoodSetting;
  }

  lemma WantedOutstanding(st: Setting, w: World)
    requires Inv(st, w) && |w.a.received| < |w.a.wanted| && Rank(w.a.phase) >= 5
    ensures var id := w.a.wanted[|w.a.received|];
      && id in st.b.tables.rows && st.b.tables.rows[id].vaultId == st.v && id !in w.a.disk.tables.rows
      && id !in st.a.tables.rows
      && st.v in w.a.disk.tables.vaults
      && (forall p :: p in ParentsOf(st.b.tables, id) ==> p in w.a.disk.tables.rows)
      && id !in w.a.wanted[|w.a.received| + 1..] && id !in w.a.received
      && w.a.received <= w.a.wanted
  {
    ReceivedSoFar(st, w);
    InvParts(st, w);
    hide Inv, Link, WantFacts, VaultClosed, SizeFaithful, Sound, StoreFacts, RowsAgree, ParentsOf, VaultGraph, HeadOf;
    OutstandingFacts(st.sha, st.a, st.b, st.v, w.a);
  }

  lemma OutstandingFacts(sha: Digest, d: Disk, peer: Disk, v: VaultId, x: Side)
    requires StoreFacts(sha, d, peer, v, x) && WantFacts(d, peer, v, x.wanted) && RowsAgree(d.tables, peer.tables)
    requires Sound(sha, peer) && VaultClosed(peer.tables, v)
    requires x.received <= x.wanted && |x.received| < |x.wanted| && Rank(x.phase) >= 4
    ensures var id := x.wanted[|x.received|];
      && id in peer.tables.rows && peer.tables.rows[id].vaultId == v && id !in x.disk.tables.rows
      && id !in d.tables.rows && v in x.disk.tables.vaults
      && (forall p :: p in ParentsOf(peer.tables, id) ==> p in x.disk.tables.rows)
      && id !in x.wanted[|x.received| + 1..] && id !in x.received
  {
    hide Sound, StoreFacts, WantFacts, VaultClosed, RowsAgree, HistoryKept, BlobsKept, ParentsOf;
    var n := |x.received|;
    var id := x.wanted[n];
    assert x.received == x.wanted[..n];
    StoredHere(sha, d, peer, v, x);
    WantedParents(sha, d, peer, v, x.wanted, n);
    WantedIsServable(peer, d, v, sha, x.wanted, id);
    NotHeldNotStored(d.tables, peer.tables, v, id);
  }

  /** The next ready revision, as A will hand it to its engine. */
  lemma ReadyIsNext(st: Setting, w: World)
    requires Inv(st, w) && w.a.receiver.ready != [] && w.a.remote.Some?
    ensures |w.a.received| < |w.a.wanted| && Rank(w.a.phase) >= 5
    ensures w.a.receiver.ready[0].header.revisionId == w.a.wanted[|w.a.received|]
    ensures Describes(InputOf(w.a, w.a.receiver.ready[0]), st.b, w.a.wanted[|w.a.received|])
    ensures w.a.receiver.(ready := w.a.receiver.ready[1..]) == IDLE
    ensures Link(st.b, st.chunkBytes, SenderOf(w.b, w.aCtl, w.aBulk),
      ReceiverOf(w.a, w.bCtl).(receiver := IDLE, received := w.a.received + [w.a.wanted[|w.a.received|]],
                               acks := [(w.a.wanted[|w.a.received|], true)]))
    ensures Acks(w.a.out[w.bCtl..]) == []
  {
    hide StoreFacts, OutScript, PhaseFacts, AfterWants, HeadHeard, CompletionFacts, InboxHolds, ExpectedFacts;
    hide Sound, VaultClosed, RowsAgree, SizeFaithful, Link;
    var s, r := SenderOf(w.b, w.aCtl, w.aBulk), ReceiverOf(w.a, w.bCtl);
    TransferMeansOutstanding(st.b, st.chunkBytes, s, r);
    IngestLink(st.b, st.chunkBytes, s, r);
    BlobOfServed(st.b, st.chunkBytes, s, r);
    ServingNeedsWants(st, w);
  }

  lemma BlobOfServed(d: Disk, chunkBytes: nat, s: SenderView, r: ReceiverView)
    requires chunkBytes > 0 && Link(d, chunkBytes, s, r) && s.outgoing.Some?
    ensures s.outgoing.value.revisionId in d.tables.rows && d.tables.rows[s.outgoing.value.revisionId].hash in d.blobs
  {
    hide InStage, FramesFrom;
  }

  /** A's store after ingesting the next wanted revision. */
  lemma IngestedStore(st: Setting, w: World, i: ReceivedInput, a': Side)
    requires Inv(st, w) && |w.a.received| < |w.a.wanted| && Rank(w.a.phase) >= 5 && Rank(a'.phase) == Rank(w.a.phase)
    requires Describes(i, st.b, w.a.wanted[|w.a.received|])
    requires a'.disk == Replay(st.sha, w.a.disk, IngestReceivedRevision(st.sha, w.a.disk.tables, i).steps)
    requires a'.received == w.a.received + [i.revisionId]
    ensures IngestReceivedRevision(st.sha, w.a.disk.tables, i).outcome == Stored(i.revisionId)
    ensures StoreFacts(st.sha, st.a, st.b, st.v, a')
  {
    WantedOutstanding(st, w);
    InvParts(st, w);
    hide Inv, Link, AfterWants;
    GrownStore(st, w.a, i, a');
  }

  lemma GrownStore(st: Setting, x: Side, i: ReceivedInput, x': Side)
    requires GoodSetting(st) && StoreFacts(st.sha, st.a, st.b, st.v, x) && Rank(x.phase) >= 4 && Rank(x'.phase) == Rank(x.phase)
    requires Describes(i, st.b, i.revisionId) && i.vaultId == st.v && i.revisionId !in x.disk.tables.rows
    requires st.v in x.disk.tables.vaults && i.revisionId !in st.a.tables.rows
    requires forall p :: p in i.declaredParentIds ==> p in x.disk.tables.rows
    requires x'.disk == Replay(st.sha, x.disk, IngestReceivedRevision(st.sha, x.disk.tables, i).steps)
    requires x'.received == x.received + [i.revisionId]
    ensures IngestReceivedRevision(st.sha, x.disk.tables, i).outcome == Stored(i.revisionId)
    ensures StoreFacts(st.sha, st.a, st.b, st.v, x')
  {
    hide Sound, BlobBacked, RowsAgree, VaultClosed, Replay, SizeFaithful, Describes, IngestReceivedRevision, HistoryKept, BlobsKept, VaultsSettled;
    var t, u := x.disk.tables, x'.disk.tables;
    SoundBlobs(st.sha, st.b);
    DescribedIsStored(i, st.b);
    IngestIsStored(st.sha, t, st.b, i);
    IngestKeepsSound(st.sha, x.disk, i);
    IngestIsVerbatim(st.sha, x.disk, i);
    VerbatimAgrees(t, u, st.b, i, st.v);
    KeptTransitive(st.a.tables, t, u);
    SameVaults(st.a.tables, t, u, st.v);
    BlobsKeptTransitive(st.a, x.disk, x'.disk);
    assert SeqToSet(x'.received) == SeqToSet(x.received) + {i.revisionId};
  }

  lemma SoundBlobs(sha: Digest, d: Disk)
    requires Sound(sha, d)
    ensures BlobsGenuine(sha, d) && BlobBacked(d)
  {
    hide Closed, Acyclic, BlobsGenuine, HeadsStored, KeysResolve, LogsLinked, BlobBacked;
  }

  lemma DescribedIsStored(i: ReceivedInput, peer: Disk)
    requires Describes(i, peer, i.revisionId)
    ensures i.revisionId in peer.tables.rows
  {
  }

  lemma SameVaults(before: Tables, t: Tables, u: Tables, v: VaultId)
    requires VaultsSettled(before, t, v, true) && u.vaults == t.vaults
    ensures VaultsSettled(before, u, v, true)
  {
  }

  lemma BlobsKeptTransitive(d: Disk, e: Disk, f: Disk)
    requires BlobsKept(d, e) && BlobsKept(e, f)
    ensures BlobsKept(d, f)
  {
  }

  /** The side after a successful ingest of the next ready revision. */
  ghost function Ingested(sha: Digest, x: Side, id: RevisionId): Side
    requires x.receiver.ready != [] && x.remote.Some?
  {
    Notify(Send(x.(receiver := x.receiver.(ready := x.receiver.ready[1..]),
        disk := Replay(sha, x.disk, IngestReceivedRevision(sha, x.disk.tables, InputOf(x, x.receiver.ready[0])).steps)),
      RevisionAck(id, true, None)).(expected := x.expected - {id}, received := x.received + [id]))
  }

  lemma IngestStepIs(sha: Digest, x: Side, id: RevisionId)
    requires x.receiver.ready != [] && x.remote.Some? && x.receiver.ready[0].header.revisionId == id
    requires IngestReceivedRevision(sha, x.disk.tables, InputOf(x, x.receiver.ready[0])).outcome == Stored(id)
    ensures IngestStep(sha, x) == Some(Ingested(sha, x, id))
  {
    hide IngestReceivedRevision, Replay, InputOf;
  }

  /** The bookkeeping after the ingest. */
  lemma IngestedFacts(d: Disk, v: VaultId, x: Side, x': Side, id: RevisionId)
    requires PhaseFacts(d, v, x) && ExpectedFacts(x) && x.received <= x.wanted && |x.received| < |x.wanted|
    requires id == x.wanted[|x.received|] && id !in x.wanted[|x.received| + 1..]
    requires Rank(x.phase) >= 5 && Rank(x.phase) <= 6 && !x.peerCompleted
    requires x' == Notify(x.(out := x'.out, receiver := IDLE, disk := x'.disk, expected := x.expected - {id}, received := x.received + [id]))
    ensures PhaseFacts(d, v, x') && ExpectedFacts(x')
    ensures x' == x.(out := x'.out, receiver := IDLE, disk := x'.disk, expected := x'.expected, received := x'.received, drained := x'.drained)
  {
    hide SeqToSet, StartVault, HelloOk;
    ExpectedShrinks(x.wanted, |x.received|);
  }

  lemma ExpectedShrinks(wanted: seq<RevisionId>, n: nat)
    requires n < |wanted| && wanted[n] !in wanted[n + 1..]
    ensures SeqToSet(wanted[n..]) - {wanted[n]} == SeqToSet(wanted[n + 1..])
  {
    assert wanted[n..] == [wanted[n]] + wanted[n + 1..];
    assert SeqToSet(wanted[n..]) == {wanted[n]} + SeqToSet(wanted[n + 1..]);
  }

  lemma ScriptTail(d: Disk, v: VaultId, x: Side, x': Side, m: Message)
    requires OutScript(d, v, x) && 5 <= Rank(x.phase) && x'.phase == x.phase && x'.wanted == x.wanted && x'.out == x.out + [m]
    requires m.RevisionHeader? || m.RevisionAck? || m.SyncComplete?
    ensures OutScript(d, v, x')
  {
    hide IsHistory, SummaryFits, HelloOk;
    assert forall i :: 0 <= i < |x.out| ==> x'.out[i] == x.out[i];
  }

  lemma IngestKeeps(st: Setting, w: World)
    requires Inv(st, w) && StepA(st, w, IngestMove).Some?
    ensures Inv(st, StepA(st, w, IngestMove).value)
  {
    InvCompletion(st, w);
    hide Inv;
    IngestEnabled(st, w);
    hide StepA, Ingested;
    NextIngested(st, w);
    var id := w.a.wanted[|w.a.received|];
    IngestMoveIs(st, w, id);
  }

  lemma IngestEnabled(st: Setting, w: World)
    requires st.chunkBytes > 0 && StepA(st, w, IngestMove).Some?
    ensures w.a.receiver.ready != [] && w.a.remote.Some?
  {
    hide IngestReceivedRevision, Replay, Notify, Reject;
  }

  lemma IngestMoveIs(st: Setting, w: World, id: RevisionId)
    requires st.chunkBytes > 0 && w.a.receiver.ready != [] && w.a.remote.Some?
    requires IngestStep(st.sha, w.a) == Some(Ingested(st.sha, w.a, id))
    ensures StepA(st, w, IngestMove) == Some(w.(a := Ingested(st.sha, w.a, id)))
  {
    hide Ingested, IngestStep;
  }

  lemma NextIngested(st: Setting, w: World)
    requires Inv(st, w) && w.a.receiver.ready != [] && w.a.remote.Some?
    ensures |w.a.received| < |w.a.wanted|
    ensures var id := w.a.wanted[|w.a.received|];
      IngestStep(st.sha, w.a) == Some(Ingested(st.sha, w.a, id)) && Inv(st, w.(a := Ingested(st.sha, w.a, id)))
  {
    hide Inv, StoreFacts, Link, GoodSetting, AfterWants, CompletionFacts, OutScript, Describes, IngestReceivedRevision, Ingested;
    hide PhaseFacts, ExpectedFacts, Headers, Acks, HasComplete, IngestStep, InputOf, Notify, Replay;
    ReadyIsNext(st, w);
    WantedOutstanding(st, w);
    NotYetCompleted(st, w);
    StillExpecting(st, w);
    InvCompletion(st, w);
    InvParts(st, w);
    InvScript(st, w);
    var id := w.a.wanted[|w.a.received|];
    IngestedShape(st.sha, w.a, id);
    DescribesNames(w.a, st.b, id);
    var i := InputOf(w.a, w.a.receiver.ready[0]);
    var a' := Ingested(st.sha, w.a, id);
    IngestedFacts(st.a, st.v, w.a, a', id);
    IngestedStore(st, w, i, a');
    IngestStepIs(st.sha, w.a, id);
    IngestSent(st, w, a', id);
  }

  lemma DescribesNames(x: Side, peer: Disk, id: RevisionId)
    requires x.receiver.ready != [] && x.remote.Some? && Describes(InputOf(x, x.receiver.ready[0]), peer, id)
    ensures InputOf(x, x.receiver.ready[0]).revisionId == id
  {
  }

  lemma IngestedShape(sha: Digest, x: Side, id: RevisionId)
    requires x.receiver.ready != [] && x.remote.Some? && x.receiver.(ready := x.receiver.ready[1..]) == IDLE
    ensures var x' := Ingested(sha, x, id);
      && x'.out == x.out + [RevisionAck(id, true, None)] && x'.received == x.received + [id] && x'.phase == x.phase
      && x'.disk == Replay(sha, x.disk, IngestReceivedRevision(sha, x.disk.tables, InputOf(x, x.receiver.ready[0])).steps)
      && x' == Notify(x.(out := x'.out, receiver := IDLE, disk := x'.disk, expected := x.expected - {id}, received := x.received + [id]))
  {
    hide Replay, IngestReceivedRevision, InputOf;
  }

  lemma IngestSent(st: Setting, w: World, a': Side, id: RevisionId)
    requires Inv(st, w) && OutScript(st.a, st.v, w.a) && Rank(w.a.phase) >= 5
    requires a' == w.a.(out := w.a.out + [RevisionAck(id, true, None)], receiver := IDLE, disk := a'.disk, expected := a'.expected,
                        received := w.a.received + [id], drained := a'.drained)
    requires PhaseFacts(st.a, st.v, a') && ExpectedFacts(a') && StoreFacts(st.sha, st.a, st.b, st.v, a')
    requires w.bCtl <= |w.a.out| && w.aCtl <= |w.b.out| && w.aBulk <= |w.b.bulkOut| && st.chunkBytes > 0
    requires Acks(w.a.out[w.bCtl..]) == []
    requires Link(st.b, st.chunkBytes, SenderOf(w.b, w.aCtl, w.aBulk),
      ReceiverOf(w.a, w.bCtl).(receiver := IDLE, received := w.a.received + [id], acks := [(id, true)]))
    ensures Inv(st, w.(a := a'))
  {
    hide Inv, StoreFacts, Link, OutScript, PhaseFacts, ExpectedFacts, Headers, HasComplete;
    ScriptTail(st.a, st.v, w.a, a', RevisionAck(id, true, None));
    SendReads(w.a.out, w.bCtl, RevisionAck(id, true, None));
    hide Acks;
    assert [] + [(id, true)] == [(id, true)];
    assert ReceiverOf(a', w.bCtl) == ReceiverOf(w.a, w.bCtl).(receiver := IDLE, received := w.a.received + [id], acks := [(id, true)]);
    IngestAssembled(st, w, w.(a := a'), RevisionAck(id, true, None));
  }

  lemma InvScript(st: Setting, w: World)
    requires Inv(st, w)
    ensures OutScript(st.a, st.v, w.a)
  {
    hide StoreFacts, OutScript, AfterWants, HeadHeard, InboxHolds, ExpectedFacts, PhaseFacts, Link, CompletionFacts, GoodSetting;
  }

  /** While a revision is outstanding the peer cannot have completed. */
  lemma NotYetCompleted(st: Setting, w: World)
    requires Inv(st, w) && |w.a.received| < |w.a.wanted| && w.a.receiver.ready != []
    ensures !w.a.peerCompleted
  {
    hide StoreFacts, OutScript, AfterWants, HeadHeard, InboxHolds, ExpectedFacts;
    hide Sound, VaultClosed, RowsAgree, SizeFaithful, Link;
    IngestLink(st.b, st.chunkBytes, SenderOf(w.b, w.aCtl, w.aBulk), ReceiverOf(w.a, w.bCtl));
  }

  lemma IngestAssembled(st: Setting, w: World, w': World, m: Message)
    requires Inv(st, w) && w' == w.(a := w'.a) && m.RevisionAck? && w'.a.out == w.a.out + [m] && Rank(w.a.phase) >= 5
    requires w'.a == w.a.(out := w'.a.out, receiver := w'.a.receiver, disk := w'.a.disk, expected := w'.a.expected,
                          received := w'.a.received, drained := w'.a.drained)
    requires OutScript(st.a, st.v, w'.a) && PhaseFacts(st.a, st.v, w'.a) && ExpectedFacts(w'.a)
    requires StoreFacts(st.sha, st.a, st.b, st.v, w'.a)
    requires Link(st.b, st.chunkBytes, SenderOf(w'.b, w'.aCtl, w'.aBulk), ReceiverOf(w'.a, w'.bCtl))
    ensures Inv(st, w')
  {
    hide Inv, StoreFacts, Link, GoodSetting, OutScript, PhaseFacts, ExpectedFacts, WantFacts, Headers, Acks, HasComplete, InboxHolds;
    InvLinks(st, w);
    SendReads(w.a.out, w.bCtl, m);
    assert Headers(w.a.out[w.bCtl..]) + [] == Headers(w.a.out[w.bCtl..]);
    assert SenderOf(w'.a, w'.bCtl, w'.bBulk) == SenderOf(w.a, w.bCtl, w.bBulk);
    IngestUntouched(st, w, w', m);
    Assembled(st, w, w');
  }

  /** What an answer leaves as it was. */
  lemma IngestUntouched(st: Setting, w: World, w': World, m: Message)
    requires Inv(st, w) && w' == w.(a := w'.a) && m.RevisionAck? && w'.a.out == w.a.out + [m] && Rank(w.a.phase) >= 5
    requires w'.a == w.a.(out := w'.a.out, receiver := w'.a.receiver, disk := w'.a.disk, expected := w'.a.expected,
                          received := w'.a.received, drained := w'.a.drained)
    ensures w.aCtl <= |w.b.out| && w.bCtl <= |w.a.out|
    ensures InboxHolds(w'.a, w'.b.out, w'.aCtl) && AfterWants(st.a, st.b, st.v, w'.a) && HeadHeard(st.b, st.v, w'.a)
    ensures CompletionFacts(w'.a, w'.b, w'.aCtl) && CompletionFacts(w'.b, w'.a, w'.bCtl)
  {
    hide StoreFacts, Link, GoodSetting, OutScript, PhaseFacts, ExpectedFacts, WantFacts, Headers, Acks, HasComplete;
    SendReads(w.a.out, w.bCtl, m);
  }

  // ---- answers, completions and opening messages -----------------------------------

  lemma OnControlIs(x: Side, m: Message)
    ensures m.RevisionAck? ==> OnControl(x, m) == OnAck(x, m.ackId, m.accepted)
    ensures m.SyncComplete? ==> OnControl(x, m) == Notify(x.(peerCompleted := true))
    ensures m.Hello? || m.Auth? || m.VaultSummary? || m.HistorySummary? || m.WantRevisions? ==>
      OnControl(x, m) == x.(inbox := x.inbox + [m])
  {
    hide OnHeader, Absorb, OnAck, OnCancel, Notify;
  }

  /** A delivery that changes neither A's store nor its transfers. */
  lemma DeliveryAssembled(st: Setting, w: World, w': World)
    requires Inv(st, w) && w' == w.(a := w'.a, aCtl := w.aCtl + 1) && w.aCtl < |w.b.out|
    requires w'.a == w.a.(inbox := w'.a.inbox, outgoing := w'.a.outgoing, peerCompleted := w'.a.peerCompleted, drained := w'.a.drained)
    requires InboxHolds(w'.a, w.b.out, w.aCtl + 1) && PhaseFacts(st.a, st.v, w'.a) && CompletionFacts(w'.a, w.b, w.aCtl + 1)
    requires Link(st.a, st.chunkBytes, SenderOf(w'.a, w'.bCtl, w'.bBulk), ReceiverOf(w'.b, w'.aCtl))
    requires Link(st.b, st.chunkBytes, SenderOf(w'.b, w'.aCtl, w'.aBulk), ReceiverOf(w'.a, w'.bCtl))
    ensures Inv(st, w')
  {
    hide StoreFacts, Link, GoodSetting, OutScript, PhaseFacts, WantFacts, Headers, Acks, HasComplete, InboxHolds;
    ScriptFrame(st.a, st.v, w.a, w'.a);
    StoreFrame(st.sha, st.a, st.b, st.v, w.a, w'.a);
    Assembled(st, w, w');
  }

  lemma AckKeeps(st: Setting, w: World)
    requires Inv(st, w) && w.aCtl < |w.b.out| && w.b.out[w.aCtl].RevisionAck?
    ensures Inv(st, AfterReading(w))
  {
    var m := w.b.out[w.aCtl];
    hide Inv, Link, GoodSetting, OnControl, Headers, Acks, HasComplete, CompletionFacts, PhaseFacts, InboxHolds;
    InvLinks(st, w);
    HeaderAfterOpening(st, w);
    OnControlIs(w.a, m);
    OthersUnread(st, w, AfterReading(w));
    InvInbox(st, w);
    AckHeard(st, w);
    AnswerMarked(st, w);
    ReadOnKeepsInbox(w.a, AfterReading(w).a, w.b.out, w.aCtl, w.aCtl + 1);
    DeliveryAssembled(st, w, AfterReading(w));
  }

  /** The only acknowledgement on its way answers the revision being served. */
  lemma AckHeard(st: Setting, w: World)
    requires st.chunkBytes > 0 && w.aCtl < |w.b.out| && w.b.out[w.aCtl].RevisionAck?
    requires w.bCtl <= |w.a.out| && w.bBulk <= |w.a.bulkOut|
    requires Link(st.a, st.chunkBytes, SenderOf(w.a, w.bCtl, w.bBulk), ReceiverOf(w.b, w.aCtl))
    ensures w.a.outgoing.Some? && w.a.outgoing.value.ack == None
    ensures w.a.outgoing.value.revisionId == w.b.out[w.aCtl].ackId && w.b.out[w.aCtl].accepted
    ensures Link(st.a, st.chunkBytes,
      SenderOf(w.a, w.bCtl, w.bBulk).(outgoing := Some(w.a.outgoing.value.(ack := Some(true)))), ReceiverOf(w.b, w.aCtl + 1))
  {
    hide Link, Headers, Acks, HasComplete;
    var s, r, m := SenderOf(w.a, w.bCtl, w.bBulk), ReceiverOf(w.b, w.aCtl), w.b.out[w.aCtl];
    DeliverReads(w.b.out, w.aCtl);
    assert r.acks == [(m.ackId, m.accepted)] + Acks(w.b.out[w.aCtl + 1..]);
    AckLink(st.a, st.chunkBytes, s, r);
    assert r.acks[0] == (m.ackId, m.accepted) && Acks(w.b.out[w.aCtl + 1..]) == r.acks[1..] == [];
  }

  /** The answer to the revision being served is noted, and nothing else. */
  lemma AnswerMarked(st: Setting, w: World)
    requires Inv(st, w) && w.aCtl < |w.b.out| && w.b.out[w.aCtl].RevisionAck?
    requires w.a.outgoing.Some? && w.a.outgoing.value.ack == None
    requires w.a.outgoing.value.revisionId == w.b.out[w.aCtl].ackId && w.b.out[w.aCtl].accepted
    ensures AfterReading(w).a == w.a.(outgoing := Some(w.a.outgoing.value.(ack := Some(true))))
    ensures PhaseFacts(st.a, st.v, AfterReading(w).a) && CompletionFacts(AfterReading(w).a, w.b, w.aCtl + 1)
  {
    hide OnControl, Inv, CompletionFacts, PhaseFacts, ExpectedFacts;
    OnControlIs(w.a, w.b.out[w.aCtl]);
    InvCompletion(st, w);
    MarkedPhase(st.a, st.v, w.a);
    CompletionUnread(w.a, AfterReading(w).a, w.b, w.aCtl, w.aCtl + 1);
  }

  lemma MarkedPhase(d: Disk, v: VaultId, x: Side)
    requires PhaseFacts(d, v, x) && x.outgoing.Some?
    ensures PhaseFacts(d, v, x.(outgoing := Some(x.outgoing.value.(ack := Some(true)))))
  {
    hide StartVault, HelloOk;
  }

  lemma InvCompletion(st: Setting, w: World)
    requires Inv(st, w)
    ensures w.aCtl <= |w.b.out| && w.bCtl <= |w.a.out| && w.aBulk <= |w.b.bulkOut| && st.chunkBytes > 0
    ensures CompletionFacts(w.a, w.b, w.aCtl) && PhaseFacts(st.a, st.v, w.a) && ExpectedFacts(w.a)
  {
    hide StoreFacts, OutScript, AfterWants, HeadHeard, InboxHolds, ExpectedFacts, PhaseFacts, Link, CompletionFacts;
    hide Sound, VaultClosed, RowsAgree, SizeFaithful;
  }

  lemma CompletionMeansServed(st: Setting, w: World)
    requires Inv(st, w) && Rank(w.b.phase) >= 7
    ensures w.a.expected == {} && w.a.received == w.a.wanted
  {
    ReceivedSoFar(st, w);
    hide StoreFacts, OutScript, WantFacts, Sound, VaultClosed, RowsAgree, SizeFaithful, Link, InboxHolds, AfterWants, HeadHeard, CompletionFacts;
    assert w.a.wanted[|w.a.received|..] == [];
  }

  lemma CompleteDelivered(st: Setting, w: World)
    requires Inv(st, w) && w.aCtl < |w.b.out| && w.b.out[w.aCtl].SyncComplete?
    ensures Inv(st, AfterReading(w))
  {
    hide Inv, Link, GoodSetting, OnControl, Headers, Acks, HasComplete, CompletionFacts, PhaseFacts, InboxHolds;
    InvLinks(st, w);
    HeaderAfterOpening(st, w);
    OthersUnread(st, w, AfterReading(w));
    CompletionNoted(st, w);
    InvInbox(st, w);
    ReadOnKeepsInbox(w.a, AfterReading(w).a, w.b.out, w.aCtl, w.aCtl + 1);
    DeliveryAssembled(st, w, AfterReading(w));
  }

  lemma CompletionNoted(st: Setting, w: World)
    requires Inv(st, w) && w.aCtl < |w.b.out| && w.b.out[w.aCtl].SyncComplete?
    ensures AfterReading(w).a == w.a.(peerCompleted := true, drained := AfterReading(w).a.drained)
    ensures PhaseFacts(st.a, st.v, AfterReading(w).a) && CompletionFacts(AfterReading(w).a, w.b, w.aCtl + 1)
  {
    OnControlIs(w.a, w.b.out[w.aCtl]);
    InvCompletion(st, w);
    DeliverReads(w.b.out, w.aCtl);
    hide OnControl, Headers, Acks, HasComplete, Notify;
    CompletionIsServed(st, w);
    hide Inv;
    CompletedPhase(st.a, st.v, w.a);
    hide PhaseFacts;
  }

  lemma CompletedPhase(d: Disk, v: VaultId, x: Side)
    requires PhaseFacts(d, v, x) && x.expected == {}
    ensures var x' := Notify(x.(peerCompleted := true));
      x' == x.(peerCompleted := true, drained := x'.drained) && PhaseFacts(d, v, x')
  {
  }

  lemma CompletionIsServed(st: Setting, w: World)
    requires Inv(st, w) && CompletionFacts(w.a, w.b, w.aCtl) && HasComplete(w.b.out[w.aCtl..])
    ensures Rank(w.b.phase) >= 7 && w.a.expected == {}
  {
    hide HasComplete;
    assert Rank(w.b.phase) >= 7 by {
      hide Inv;
    }
    hide CompletionFacts;
    CompletionMeansServed(st, w);
  }

  lemma OpeningQueued(x: Side, x': Side, d: Disk, v: VaultId, peer: Side, read: nat)
    requires InboxHolds(x, peer.out, read) && read < 5 && read < |peer.out|
    requires x' == x.(inbox := x.inbox + [peer.out[read]])
    ensures InboxHolds(x', peer.out, read + 1)
  {
    var c := Consumed(x.phase);
    assert peer.out[c..read] + [peer.out[read]] == peer.out[c..read + 1];
  }

  lemma OpeningDelivered(st: Setting, w: World)
    requires Inv(st, w) && w.aCtl < |w.b.out| && w.aCtl < 5
    ensures Inv(st, AfterReading(w))
  {
    hide Inv, Link, GoodSetting, OnControl, Headers, Acks, HasComplete, CompletionFacts, PhaseFacts, InboxHolds;
    InvLinks(st, w);
    OpeningIsOpening(st, w);
    OnControlIs(w.a, w.b.out[w.aCtl]);
    OthersUnread(st, w, AfterReading(w));
    OpeningNoted(st, w);
    InvInbox(st, w);
    OpeningQueued(w.a, AfterReading(w).a, st.b, st.v, w.b, w.aCtl);
    DeliveryAssembled(st, w, AfterReading(w));
  }

  lemma InvInbox(st: Setting, w: World)
    requires Inv(st, w)
    ensures InboxHolds(w.a, w.b.out, w.aCtl)
  {
    hide StoreFacts, OutScript, AfterWants, HeadHeard, InboxHolds, ExpectedFacts, PhaseFacts, Link, CompletionFacts, GoodSetting;
  }

  lemma OpeningIsOpening(st: Setting, w: World)
    requires Inv(st, w) && w.aCtl < |w.b.out| && w.aCtl < 5
    ensures var m := w.b.out[w.aCtl]; m.Hello? || m.Auth? || m.VaultSummary? || m.HistorySummary? || m.WantRevisions?
  {
    hide Link, StoreFacts, GoodSetting, WantFacts, IsHistory, CompletionFacts, ExpectedFacts, AfterWants, PhaseFacts;
  }

  lemma OpeningNoted(st: Setting, w: World)
    requires Inv(st, w) && w.aCtl < |w.b.out| && w.aCtl < 5
    requires AfterReading(w).a == w.a.(inbox := w.a.inbox + [w.b.out[w.aCtl]])
    ensures PhaseFacts(st.a, st.v, AfterReading(w).a) && CompletionFacts(AfterReading(w).a, w.b, w.aCtl + 1)
  {
    hide Inv, OnControl, CompletionFacts;
    OpeningIsOpening(st, w);
    InvCompletion(st, w);
    CompletionUnread(w.a, AfterReading(w).a, w.b, w.aCtl, w.aCtl + 1);
  }

  lemma ControlKeeps(st: Setting, w: World)
    requires Inv(st, w) && w.aCtl < |w.b.out|
    ensures Inv(st, AfterReading(w))
  {
    HeaderAfterOpening(st, w);
    hide Inv, OnControl;
    if w.aCtl < 5 {
      OpeningDelivered(st, w);
    } else if w.b.out[w.aCtl].RevisionHeader? {
      HeaderKeeps(st, w);
    } else if w.b.out[w.aCtl].RevisionAck? {
      AckKeeps(st, w);
    } else {
      CompleteDelivered(st, w);
    }
  }

  // ---- every step, every run --------------------------------------------------------

  lemma ReadIsDelivered(st: Setting, w: World)
    requires Inv(st, w) && StepA(st, w, ControlMove).Some?
    ensures Inv(st, StepA(st, w, ControlMove).value)
  {
    InvCompletion(st, w);
    hide Inv;
    ReadingIs(st, w);
    hide OnControl, StepA;
    ControlKeeps(st, w);
  }

  lemma ReadingIs(st: Setting, w: World)
    requires st.chunkBytes > 0 && StepA(st, w, ControlMove).Some?
    ensures w.aCtl < |w.b.out| && StepA(st, w, ControlMove).value == AfterReading(w)
  {
    hide OnControl;
  }

  lemma StepAKeeps(st: Setting, w: World, m: Move)
    requires Inv(st, w) && StepA(st, w, m).Some?
    ensures Inv(st, StepA(st, w, m).value)
  {
    hide Inv, StepA;
    match m
    case RunMove(c) => RunKeeps(st, w, c);
    case ServeMove => ServeKeeps(st, w);
    case IngestMove => IngestKeeps(st, w);
    case ControlMove => ReadIsDelivered(st, w);
    case BulkMove => BulkKeeps(st, w);
  }

  lemma InvSwaps(st: Setting, w: World)
    requires Inv(st, w)
    ensures Inv(SwappedSetting(st), Swapped(w))
  {
    hide Half, Sound, VaultClosed, RowsAgree, SizeFaithful;
    AgreeSwaps(st.a.tables, st.b.tables);
    assert SwappedSetting(SwappedSetting(st)) == st && Swapped(Swapped(w)) == w;
  }

  lemma AgreeSwaps(t: Tables, u: Tables)
    requires RowsAgree(t, u)
    ensures RowsAgree(u, t)
  {
  }

  lemma StepKeeps(st: Setting, w: World, who: Who, m: Move)
    requires Inv(st, w) && Step(st, w, who, m).Some?
    ensures Inv(st, Step(st, w, who, m).value)
  {
    hide StepA, Inv, Link;
    InvLinks(st, w);
    match who
    case DeviceA => StepAKeeps(st, w, m);
    case DeviceB => StepBKeeps(st, w, m);
  }

  lemma StepBKeeps(st: Setting, w: World, m: Move)
    requires Inv(st, w) && st.chunkBytes > 0 && StepA(SwappedSetting(st), Swapped(w), m).Some?
    ensures Inv(st, Swapped(StepA(SwappedSetting(st), Swapped(w), m).value))
  {
    hide StepA, Inv;
    var st', w' := SwappedSetting(st), Swapped(w);
    InvSwaps(st, w);
    StepAKeeps(st', w', m);
    InvSwaps(st', StepA(st', w', m).value);
    assert SwappedSetting(st') == st;
  }

  /** One step of one device. */
  datatype Act = Act(who: Who, move: Move)

  /** The worlds of a run and the steps between them, from the start of a session. */
  ghost predicate IsRun(st: Setting, ws: seq<World>, acts: seq<Act>)
    requires st.chunkBytes > 0
  {
    && |ws| == |acts| + 1 && Initial(st, ws[0])
    && forall i :: 0 <= i < |acts| ==> Step(st, ws[i], acts[i].who, acts[i].move) == Some(ws[i + 1])
  }

  lemma {:induction false} RunInv(st: Setting, ws: seq<World>, acts: seq<Act>, i: nat)
    requires GoodSetting(st) && IsRun(st, ws, acts) && i < |ws|
    ensures Inv(st, ws[i])
  {
    hide Initial, Inv, GoodSetting, Step, Link;
    if i == 0 {
      InitialInv(st, ws[0]);
    } else {
      RunInv(st, ws, acts, i - 1);
      InvLinks(st, ws[i - 1]);
      assert Step(st, ws[i - 1], acts[i - 1].who, acts[i - 1].move) == Some(ws[i - 1 + 1]);
      StepKeeps(st, ws[i - 1], acts[i - 1].who, acts[i - 1].move);
    }
  }
}
