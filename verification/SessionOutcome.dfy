/**
 What a joint session achieves: at every moment both stores are sound and agree, and a session that
 finished on both sides gave each device everything the other's head rests on.
 */
module SessionOutcome {
  import opened Basics
  import opened Reachability
  import opened RemoteHistory
  import opened Divergence
  import opened Store
  import opened EngineRuns
  import opened Session
  import opened TransferLink
  import opened JointSession
  import opened JointSafety
  import opened JointTransfers
  import opened JointIngest
  import opened JointLoss
  import opened JointRuns

  // ---- at every moment -------------------------------------------------------------

  /** Every head is where it was; a vault that was adopted has none. */
  ghost predicate HeadsUnmoved(before: Tables, t: Tables, v: VaultId) {
    && (forall u :: u in before.vaults ==> u in t.vaults && t.vaults[u] == before.vaults[u])
    && (forall u :: u in t.vaults ==> u in before.vaults || (u == v && t.vaults[u].head == None))
    && t.headEvents == before.headEvents
  }

  /** The two stores as a pair: each sound, the vault closed in each, shared revisions the same. */
  ghost predicate StoresAgree(st: Setting, w: World) {
    && Sound(st.sha, w.a.disk) && Sound(st.sha, w.b.disk)
    && VaultClosed(w.a.disk.tables, st.v) && VaultClosed(w.b.disk.tables, st.v)
    && RowsAgree(w.a.disk.tables, w.b.disk.tables)
  }

  lemma HalfSafe(st: Setting, w: World)
    requires Inv(st, w)
    ensures Sound(st.sha, w.a.disk) && VaultClosed(w.a.disk.tables, st.v) && RowsAgree(w.a.disk.tables, st.b.tables)
    ensures HistoryKept(st.a.tables, w.a.disk.tables) && HeadsUnmoved(st.a.tables, w.a.disk.tables, st.v)
    ensures forall id :: id in w.a.disk.tables.rows <==> id in st.a.tables.rows || id in w.a.received
    ensures forall id :: id in w.a.received ==> id in st.b.tables.rows && id !in st.a.tables.rows
    ensures GoodSetting(st) && w.a.received <= w.a.wanted
  {
    hide Inv, Sound, RowsAgree, VaultClosed, HistoryKept, GoodSetting, AfterWants, Link, BlobsKept;
    InvParts(st, w);
    ReceivedSoFar(st, w);
    assert forall id :: id in SeqToSet(w.a.received) <==> id in w.a.received;
  }

  /** Stores that only gained the other's revisions still agree with each other. */
  lemma GrownStoresAgree(a: Tables, b: Tables, t: Tables, u: Tables)
    requires HistoryKept(a, t) && HistoryKept(b, u) && RowsAgree(t, b) && RowsAgree(u, a)
    requires forall id :: id in t.rows ==> id in a.rows || id in b.rows
    requires forall id :: id in u.rows ==> id in a.rows || id in b.rows
    ensures RowsAgree(t, u)
  {
    forall id | id in t.rows && id in u.rows
      ensures t.rows[id].vaultId == u.rows[id].vaultId && t.rows[id].hash == u.rows[id].hash
      ensures t.rows[id].sizeBytes == u.rows[id].sizeBytes && SeqToSet(ParentsOf(t, id)) == SeqToSet(ParentsOf(u, id))
    {
      if id in b.rows {
        assert u.rows[id] == b.rows[id];
      } else {
        assert t.rows[id] == a.rows[id];
      }
    }
  }

  /** At every moment of every session: both stores sound and agreeing, nothing lost, no head moved. */
  lemma SafeAtEveryMoment(st: Setting, ws: seq<World>, acts: seq<Act>, i: nat)
    requires GoodSetting(st) && IsRun(st, ws, acts) && i < |ws|
    ensures StoresAgree(st, ws[i])
    ensures HistoryKept(st.a.tables, ws[i].a.disk.tables) && HistoryKept(st.b.tables, ws[i].b.disk.tables)
    ensures HeadsUnmoved(st.a.tables, ws[i].a.disk.tables, st.v) && HeadsUnmoved(st.b.tables, ws[i].b.disk.tables, st.v)
    ensures ws[i].a.received <= ws[i].a.wanted && ws[i].b.received <= ws[i].b.wanted
  {
    hide Inv, IsRun, GoodSetting, Sound, VaultClosed, RowsAgree, HistoryKept, HeadsUnmoved;
    RunInv(st, ws, acts, i);
    InvSafe(st, ws[i]);
  }

  lemma InvSafe(st: Setting, w: World)
    requires Inv(st, w)
    ensures StoresAgree(st, w)
    ensures HistoryKept(st.a.tables, w.a.disk.tables) && HistoryKept(st.b.tables, w.b.disk.tables)
    ensures HeadsUnmoved(st.a.tables, w.a.disk.tables, st.v) && HeadsUnmoved(st.b.tables, w.b.disk.tables, st.v)
    ensures w.a.received <= w.a.wanted && w.b.received <= w.b.wanted
  {
    hide Inv, GoodSetting, Sound, VaultClosed, RowsAgree, HistoryKept, HeadsUnmoved;
    HalfSafe(st, w);
    InvSwaps(st, w);
    HalfSafe(SwappedSetting(st), Swapped(w));
    GrownStoresAgree(st.a.tables, st.b.tables, w.a.disk.tables, w.b.disk.tables);
  }

  // ---- at the end ------------------------------------------------------------------

  /** The tables hold, in the vault, everything the peer's head rests on. */
  ghost predicate HoldsHistoryOf(t: Tables, peer: Tables, v: VaultId) {
    HeadOf(peer, v).Some? ==>
      forall id :: Reaches(VaultGraph(peer, v), id, HeadOf(peer, v).value) ==> id in VaultGraph(t, v)
  }

  lemma WantsCoverHistory(sha: Digest, d: Disk, peer: Disk, v: VaultId, wanted: seq<RevisionId>, t: Tables)
    requires Sound(sha, peer) && VaultClosed(peer.tables, v) && WantFacts(d, peer, v, wanted)
    requires HistoryKept(d.tables, t) && RowsAgree(t, peer.tables) && forall id :: id in wanted ==> id in t.rows
    ensures HoldsHistoryOf(t, peer.tables, v)
  {
    hide Sound, VaultClosed, Reaches;
    if HeadOf(peer.tables, v).Some? {
      var head, g := HeadOf(peer.tables, v).value, VaultGraph(peer.tables, v);
      AdvertisedIsClosed(sha, peer, v, head);
      forall id | Reaches(g, id, head)
        ensures id in VaultGraph(t, v)
      {
        assert id in g;
        if id !in VaultGraph(d.tables, v) {
          assert id in wanted;
        }
      }
    }
  }

  lemma HalfDelivered(st: Setting, w: World)
    requires Inv(st, w) && BothFinished(w)
    ensures w.a.received == w.a.wanted == w.b.sent
    ensures WantFacts(st.a, st.b, st.v, w.a.wanted)
    ensures HoldsHistoryOf(w.a.disk.tables, st.b.tables, st.v) && st.v in w.a.disk.tables.vaults
    ensures HeadOf(w.a.disk.tables, st.v) == HeadOf(st.a.tables, st.v)
    ensures w.a.remoteHead == HeadOf(st.b.tables, st.v)
    ensures HeadOf(st.b.tables, st.v).Some? ==> w.a.remoteGraph == VaultGraph(st.b.tables, st.v)
  {
    hide Inv, Sound, VaultClosed, RowsAgree, HistoryKept, StoreFacts, WantFacts, Link, VaultGraph, SizeFaithful, Reaches;
    InvParts(st, w);
    HalfSafe(st, w);
    ReceivedSoFar(st, w);
    FinishedFacts(st, w);
    StoredHere(st.sha, st.a, st.b, st.v, w.a);
    WantsCoverHistory(st.sha, st.a, st.b, st.v, w.a.wanted, w.a.disk.tables);
  }

  lemma FinishedFacts(st: Setting, w: World)
    requires Inv(st, w) && BothFinished(w)
    ensures w.b.toServe == [] && w.b.outgoing.None? && w.a.remoteHead == HeadOf(st.b.tables, st.v)
  {
    hide StoreFacts, OutScript, AfterWants, InboxHolds, ExpectedFacts, Link, CompletionFacts, GoodSetting, HelloOk, HeadOf;
  }

  /**
   A session that finished on both sides: each device received exactly its want list, in order, and
   the other sent exactly that; each now holds everything the other's advertised head rests on.
   */
  lemma FinishedSessionDelivered(st: Setting, ws: seq<World>, acts: seq<Act>)
    requires GoodSetting(st) && IsRun(st, ws, acts) && BothFinished(ws[|acts|])
    ensures var w := ws[|acts|];
      && w.a.received == w.a.wanted == w.b.sent && w.b.received == w.b.wanted == w.a.sent
      && WantFacts(st.a, st.b, st.v, w.a.wanted) && WantFacts(st.b, st.a, st.v, w.b.wanted)
      && HoldsHistoryOf(w.a.disk.tables, st.b.tables, st.v) && HoldsHistoryOf(w.b.disk.tables, st.a.tables, st.v)
      && StoresAgree(st, w)
  {
    hide Inv, GoodSetting, Initial, Step, StoresAgree, WantFacts, HoldsHistoryOf;
    var w := ws[|acts|];
    RunInv(st, ws, acts, |acts|);
    InvSafe(st, w);
    HalfDelivered(st, w);
    InvSwaps(st, w);
    HalfDelivered(SwappedSetting(st), Swapped(w));
  }

  // ---- the verdict -----------------------------------------------------------------

  /** What `classify` reports: the vocabulary covers a side without a head too. */
  ghost predicate Classified(t: Tables, v: VaultId, remoteHead: Option<RevisionId>, remoteGraph: Graph, d: Verdict) {
    match (HeadOf(t, v), remoteHead)
    case (None, None) => d == Equal
    case (None, Some(_)) => d == RemoteAhead
    case (Some(_), None) => d == LocalAhead
    case (Some(local), Some(remote)) => VerdictHolds(UnionGraphs(VaultGraph(t, v), remoteGraph), local, remote, d)
  }

  /** The last thing a session does: one of the five words, and on an acyclic union it is the right one. */
  method Classify(metadata: MetadataStore, v: VaultId, remoteHead: Option<RevisionId>, remoteGraph: Graph) returns (d: Verdict)
    ensures Acyclic(UnionGraphs(VaultGraph(metadata.Contents(), v), remoteGraph)) ==>
      Classified(metadata.Contents(), v, remoteHead, remoteGraph, d)
  {
    var localHead := if v in metadata.vaults then metadata.vaults[v].head else None;
    if localHead.None? && remoteHead.None? {
      return Equal;
    }
    if localHead.None? {
      return RemoteAhead;
    }
    if remoteHead.None? {
      return LocalAhead;
    }
    var local := metadata.LoadGraph(v);
    d := ClassifyDivergence(UnionGraphs(local, remoteGraph), localHead.value, remoteHead.value);
  }

  ghost predicate AClassified(st: Setting, w: World, d: Verdict) {
    Classified(w.a.disk.tables, st.v, w.a.remoteHead, w.a.remoteGraph, d)
  }

  /** What the peer sent was in the peer's graph, so joining the grown store with it is joining the store at the start. */
  lemma GrownUnion(a: Tables, b: Tables, t: Tables, v: VaultId)
    requires HistoryKept(a, t) && RowsAgree(t, b) && forall id :: id in t.rows ==> id in a.rows || id in b.rows
    ensures UnionGraphs(VaultGraph(t, v), VaultGraph(b, v)) == UnionGraphs(VaultGraph(a, v), VaultGraph(b, v))
  {
    var g, h := UnionGraphs(VaultGraph(t, v), VaultGraph(b, v)), UnionGraphs(VaultGraph(a, v), VaultGraph(b, v));
    assert g.Keys == h.Keys;
    forall id | id in g
      ensures g[id] == h[id]
    {
    }
  }

  /** The vault graphs of agreeing stores in which the vault is closed. */
  lemma VaultGraphsJoin(sha: Digest, d: Disk, e: Disk, v: VaultId)
    requires Sound(sha, d) && Sound(sha, e) && VaultClosed(d.tables, v) && VaultClosed(e.tables, v)
    requires RowsAgree(d.tables, e.tables)
    ensures var g, h := VaultGraph(d.tables, v), VaultGraph(e.tables, v);
      Closed(g) && Closed(h) && Acyclic(g) && Acyclic(h) && Agree(g, h)
  {
    hide Sound;
    VaultGraphAcyclic(sha, d, v);
    VaultGraphAcyclic(sha, e, v);
    hide Acyclic;
    forall c, p | c in VaultGraph(d.tables, v) && c in VaultGraph(e.tables, v)
      ensures p in ParentsOf(d.tables, c) <==> p in ParentsOf(e.tables, c)
    {
      assert p in SeqToSet(ParentsOf(d.tables, c)) <==> p in SeqToSet(ParentsOf(e.tables, c));
    }
  }

  lemma VerdictOverStart(st: Setting, w: World, d: Verdict)
    requires Inv(st, w) && BothFinished(w) && AClassified(st, w, d)
    ensures Classified(st.a.tables, st.v, HeadOf(st.b.tables, st.v), VaultGraph(st.b.tables, st.v), d)
  {
    hide Inv, HistoryKept, RowsAgree, VaultGraph, HoldsHistoryOf, WantFacts, Sound, VaultClosed, VerdictHolds, HeadOf;
    HalfDelivered(st, w);
    HalfSafe(st, w);
    GrownUnion(st.a.tables, st.b.tables, w.a.disk.tables, st.v);
  }

  lemma JoinedSetting(st: Setting)
    requires GoodSetting(st)
    ensures var g, h := VaultGraph(st.a.tables, st.v), VaultGraph(st.b.tables, st.v);
      Closed(g) && Closed(h) && Acyclic(g) && Acyclic(h) && Agree(g, h)
  {
    hide Sound, VaultClosed, RowsAgree, Closed, Acyclic, Agree, SizeFaithful;
    VaultGraphsJoin(st.sha, st.a, st.b, st.v);
  }

  /** Both devices come to mirrored verdicts, though each compares over its own store. */
  lemma VerdictsMirror(st: Setting, w: World, dA: Verdict, dB: Verdict)
    requires Inv(st, w) && BothFinished(w)
    requires AClassified(st, w, dA) && AClassified(SwappedSetting(st), Swapped(w), dB)
    ensures Mirrored(dA, dB)
  {
    hide Inv, VaultGraph, GoodSetting, AClassified, VerdictHolds, Closed, Acyclic, Agree;
    VerdictOverStart(st, w, dA);
    InvSwaps(st, w);
    VerdictOverStart(SwappedSetting(st), Swapped(w), dB);
    HalfSafe(st, w);
    JoinedSetting(st);
    var a, b, v := st.a.tables, st.b.tables, st.v;
    if HeadOf(a, v).Some? && HeadOf(b, v).Some? {
      DevicesReachMirroredVerdicts(VaultGraph(a, v), VaultGraph(b, v), HeadOf(a, v).value, HeadOf(b, v).value, dA, dB);
    }
  }
}
