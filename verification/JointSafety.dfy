/** Every step of a joint session keeps the invariant, whatever the scheduler does. */
module JointSafety {
  import opened Basics
  import opened Reachability
  import opened RemoteHistory
  import opened Framing
  import opened Chunks
  import opened Store
  import opened Engine
  import opened EngineRuns
  import opened Messages
  import opened Inbound
  import opened Session
  import opened TransferLink
  import opened JointSession

  lemma InitialInv(st: Setting, w: World)
    requires GoodSetting(st) && Initial(st, w)
    ensures Inv(st, w)
  {
    InitialHalf(st, w);
    InitialHalf(SwappedSetting(st), Swapped(w));
  }

  lemma InitialHalf(st: Setting, w: World)
    requires GoodSetting(st) && Initial(st, w)
    ensures Half(st, w)
  {
    hide Sound, RowsAgree, VaultClosed;
    assert RowsAgree(st.a.tables, st.b.tables) && VaultClosed(st.a.tables, st.v) && Sound(st.sha, st.a);
  }

  /** What is left to show about device B when only A and A's reading moved. */
  lemma OtherHalf(st: Setting, w: World, w': World)
    requires Inv(st, w)
    requires w'.b == w.b && w'.bCtl == w.bCtl && w'.bBulk == w.bBulk
    requires w.a.out <= w'.a.out && w.a.bulkOut <= w'.a.bulkOut
    requires w'.aCtl <= |w'.b.out| && w'.aBulk <= |w'.b.bulkOut|
    requires CompletionFacts(w'.b, w'.a, w'.bCtl)
    requires Link(st.b, st.chunkBytes, SenderOf(w'.b, w'.aCtl, w'.aBulk), ReceiverOf(w'.a, w'.bCtl))
    ensures Half(SwappedSetting(st), Swapped(w'))
  {
    hide Link, StoreFacts, GoodSetting, OutScript, PhaseFacts, AfterWants, ExpectedFacts, HeadHeard, CompletionFacts;
    var c := Consumed(w.b.phase);
    assert w'.a.out[c..Max(c, Min(w.bCtl, 5))] == w.a.out[c..Max(c, Min(w.bCtl, 5))];
  }

  /** The two directions of the invariant, and the cursors they are read with. */
  lemma InvLinks(st: Setting, w: World)
    requires Inv(st, w)
    ensures st.chunkBytes > 0 && GoodSetting(st)
    ensures w.aCtl <= |w.b.out| && w.bCtl <= |w.a.out| && w.aBulk <= |w.b.bulkOut| && w.bBulk <= |w.a.bulkOut|
    ensures Link(st.a, st.chunkBytes, SenderOf(w.a, w.bCtl, w.bBulk), ReceiverOf(w.b, w.aCtl))
    ensures Link(st.b, st.chunkBytes, SenderOf(w.b, w.aCtl, w.aBulk), ReceiverOf(w.a, w.bCtl))
  {
    hide StoreFacts, OutScript, AfterWants, HeadHeard, InboxHolds, ExpectedFacts, PhaseFacts, Link, CompletionFacts;
    hide Sound, VaultClosed, RowsAgree, SizeFaithful;
  }

  /** The serving device has heard the other's want list, so that one is past computing it. */
  lemma ServingNeedsWants(st: Setting, w: World)
    requires Inv(st, w) && Active(w.b)
    ensures Rank(w.a.phase) >= 5
  {
    hide Link, StoreFacts, GoodSetting, AfterWants, ExpectedFacts, HeadHeard, CompletionFacts, PhaseFacts, IsHistory;
  }

  /** All there is to show for a step of A. */
  lemma Assembled(st: Setting, w: World, w': World)
    requires Inv(st, w)
    requires w'.b == w.b && w'.bCtl == w.bCtl && w'.bBulk == w.bBulk
    requires w.a.out <= w'.a.out && w.a.bulkOut <= w'.a.bulkOut
    requires w'.aCtl <= |w'.b.out| && w'.aBulk <= |w'.b.bulkOut|
    requires OutScript(st.a, st.v, w'.a) && InboxHolds(w'.a, w'.b.out, w'.aCtl) && PhaseFacts(st.a, st.v, w'.a)
    requires StoreFacts(st.sha, st.a, st.b, st.v, w'.a) && AfterWants(st.a, st.b, st.v, w'.a)
    requires ExpectedFacts(w'.a) && HeadHeard(st.b, st.v, w'.a)
    requires CompletionFacts(w'.a, w'.b, w'.aCtl) && CompletionFacts(w'.b, w'.a, w'.bCtl)
    requires Link(st.a, st.chunkBytes, SenderOf(w'.a, w'.bCtl, w'.bBulk), ReceiverOf(w'.b, w'.aCtl))
    requires Link(st.b, st.chunkBytes, SenderOf(w'.b, w'.aCtl, w'.aBulk), ReceiverOf(w'.a, w'.bCtl))
    ensures Inv(st, w')
  {
    OtherHalf(st, w, w');
    hide Link, StoreFacts, GoodSetting, OutScript, PhaseFacts, AfterWants, ExpectedFacts, HeadHeard, CompletionFacts, InboxHolds;
  }

  lemma StoreFrame(sha: Digest, d: Disk, peer: Disk, v: VaultId, x: Side, x': Side)
    requires StoreFacts(sha, d, peer, v, x) && x'.disk == x.disk && x'.received == x.received
    requires Rank(x'.phase) >= 4 <==> Rank(x.phase) >= 4
    ensures StoreFacts(sha, d, peer, v, x')
  {
    hide Sound, HistoryKept, RowsAgree, VaultClosed;
  }

  // ---- the run -------------------------------------------------------------------

  /** The opening messages come in the order the phases await them. */
  lemma ScriptIsAwaited(d: Disk, v: VaultId, peer: Side, p: Phase)
    requires OutScript(d, v, peer) && 1 <= Rank(p) <= 5 && |peer.out| >= Rank(p)
    ensures Rank(peer.phase) >= Rank(p) && Awaited(p, peer.out[Rank(p) - 1])
  {
    hide IsHistory, HeadOf;
  }

  lemma SliceFront(out: seq<Message>, from: nat, to: nat)
    requires from < to <= |out|
    ensures out[from..to][0] == out[from] && out[from..to][..0] + out[from..to][1..] == out[from + 1..to]
  {
  }

  lemma {:induction false} FirstIsAwaited(p: Phase, inbox: seq<Message>)
    requires inbox != [] && Awaited(p, inbox[0])
    ensures FirstAwaited(p, inbox) == Some(0)
  {
    hide Awaited;
  }

  /** The inbox starts with exactly the message the phase awaits, once it has been delivered. */
  lemma NextAwaited(x: Side, d: Disk, v: VaultId, peer: Side, read: nat)
    requires InboxHolds(x, peer.out, read) && OutScript(d, v, peer) && 1 <= Rank(x.phase) <= 5
    ensures read < Rank(x.phase) ==> FirstAwaited(x.phase, x.inbox) == None
    ensures read >= Rank(x.phase) ==>
      && Rank(x.phase) <= |peer.out| && Rank(peer.phase) >= Rank(x.phase)
      && FirstAwaited(x.phase, x.inbox) == Some(0) && x.inbox[0] == peer.out[Rank(x.phase) - 1]
      && Awaited(x.phase, x.inbox[0])
      && x.inbox[..0] + x.inbox[1..] == peer.out[Rank(x.phase)..Max(Rank(x.phase), Min(read, 5))]
  {
    hide OutScript, Awaited;
    var r := Rank(x.phase);
    if read >= r {
      ScriptIsAwaited(d, v, peer, x.phase);
      SliceFront(peer.out, r - 1, Min(read, 5));
      FirstIsAwaited(x.phase, x.inbox);
    } else {
      assert x.inbox == [];
    }
  }

  /** The side after consuming what it awaited; its inbox is still exactly what is delivered and not consumed. */
  ghost function Popped(x: Side): Side {
    if x.inbox == [] then x else x.(inbox := x.inbox[..0] + x.inbox[1..])
  }

  lemma PoppedHolds(x: Side, x': Side, d: Disk, v: VaultId, peer: Side, read: nat)
    requires InboxHolds(x, peer.out, read) && OutScript(d, v, peer) && 1 <= Rank(x.phase) <= 5
    requires read >= Rank(x.phase) && x'.inbox == Popped(x).inbox && Rank(x'.phase) == Rank(x.phase) + 1
    ensures InboxHolds(x', peer.out, read)
  {
    NextAwaited(x, d, v, peer, read);
    hide OutScript, Awaited, FirstAwaited;
  }

  /** The run goes on from an await only with the message it awaits. */
  lemma ConsumesNext(st: Setting, w: World, c: Choice)
    requires Inv(st, w) && 1 <= Rank(w.a.phase) <= 5 && RunStep(st.sha, w.a, c).Some?
    ensures w.aCtl >= Rank(w.a.phase) && Rank(w.a.phase) <= |w.b.out| && Rank(w.b.phase) >= Rank(w.a.phase)
    ensures Awaited(w.a.phase, w.b.out[Rank(w.a.phase) - 1])
    ensures RunStep(st.sha, w.a, c) == Consume(st.sha, Popped(w.a), w.b.out[Rank(w.a.phase) - 1], c)
  {
    hide Link, StoreFacts, GoodSetting, AfterWants, ExpectedFacts, HeadHeard, CompletionFacts, OutScript, Consume, Awaited, FirstAwaited;
    NextAwaited(w.a, st.b, st.v, w.b, w.aCtl);
  }

  /** An opening message more leaves the reading of headers, answers and completions alone. */
  lemma OpeningSendLinks(st: Setting, w: World, w': World, m: Message)
    requires Inv(st, w) && Rank(w.a.phase) <= 4 && Rank(w'.a.phase) == Rank(w.a.phase) + 1
    requires w' == w.(a := w'.a) && w'.a.out == w.a.out + [m]
    requires !m.RevisionHeader? && !m.RevisionAck? && !m.SyncComplete?
    requires w'.a.bulkOut == w.a.bulkOut && w'.a.sent == w.a.sent && w'.a.toServe == w.a.toServe
    requires w'.a.outgoing == w.a.outgoing && w'.a.transferSeq == w.a.transferSeq
    requires w'.a.received == w.a.received && w'.a.receiver == w.a.receiver && w'.a.peerCompleted == w.a.peerCompleted
    requires Rank(w.a.phase) < 4 ==> w'.a.wanted == w.a.wanted
    ensures Link(st.a, st.chunkBytes, SenderOf(w'.a, w'.bCtl, w'.bBulk), ReceiverOf(w'.b, w'.aCtl))
    ensures Link(st.b, st.chunkBytes, SenderOf(w'.b, w'.aCtl, w'.aBulk), ReceiverOf(w'.a, w'.bCtl))
    ensures CompletionFacts(w'.a, w'.b, w'.aCtl) && CompletionFacts(w'.b, w'.a, w'.bCtl)
  {
    SendReads(w.a.out, w.bCtl, m);
    if Active(w.b) {
      ServingNeedsWants(st, w);
    }
    RestingTakesWants(st.b, st.chunkBytes, SenderOf(w.b, w.aCtl, w.aBulk), ReceiverOf(w.a, w.bCtl), w'.a.wanted);
    hide Link, StoreFacts, GoodSetting, AfterWants, ExpectedFacts, HeadHeard, OutScript, InboxHolds, PhaseFacts;
    assert SenderOf(w'.a, w'.bCtl, w'.bBulk) == SenderOf(w.a, w.bCtl, w.bBulk);
    assert ReceiverOf(w'.a, w'.bCtl) == ReceiverOf(w.a, w.bCtl).(wanted := w'.a.wanted);
  }

  /** Before the peer serves, the want list can still be decided. */
  lemma RestingTakesWants(d: Disk, chunkBytes: nat, s: SenderView, r: ReceiverView, wanted: seq<RevisionId>)
    requires chunkBytes > 0 && (Link(d, chunkBytes, s, r))
    ensures !s.active ==> Link(d, chunkBytes, s, r.(wanted := wanted)) && r.received == []
  {
    hide InStage, Serves, FramesFrom;
  }

  lemma ScriptExtends(d: Disk, v: VaultId, x: Side, x': Side, m: Message)
    requires OutScript(d, v, x) && Rank(x.phase) <= 4 && Rank(x'.phase) == Rank(x.phase) + 1
    requires x'.out == x.out + [m] && (Rank(x.phase) < 4 ==> x'.wanted == x.wanted)
    requires match x.phase
      case Unstarted => HelloOk(m)
      case AwaitHello => m.Auth?
      case AwaitAuth => SummaryFits(d.tables, v, m)
      case AwaitSummary => m.HistorySummary? && IsHistory(d.tables, v, m.revisions)
      case AwaitHistory => m.WantRevisions? && m.revisionIds == x'.wanted
    ensures OutScript(d, v, x')
  {
    hide IsHistory, SummaryFits, HelloOk;
    assert forall i :: 0 <= i < |x.out| ==> x'.out[i] == x.out[i];
  }

  lemma StartKeeps(st: Setting, w: World, c: Choice)
    requires Inv(st, w) && w.a.phase == Unstarted
    ensures Inv(st, w.(a := RunStep(st.sha, w.a, c).value))
  {
    hide Link, StoreFacts, GoodSetting, OutScript, CompletionFacts;
    var w' := w.(a := RunStep(st.sha, w.a, c).value);
    ScriptExtends(st.a, st.v, w.a, w'.a, w.a.hello);
    StoreFrame(st.sha, st.a, st.b, st.v, w.a, w'.a);
    OpeningSendLinks(st, w, w', w.a.hello);
    Assembled(st, w, w');
  }

  lemma HelloKeeps(st: Setting, w: World, c: Choice)
    requires Inv(st, w) && w.a.phase == AwaitHello && c.decodes && c.trusted && RunStep(st.sha, w.a, c).Some?
    ensures Inv(st, w.(a := RunStep(st.sha, w.a, c).value))
  {
    hide Link, StoreFacts, GoodSetting, CompletionFacts, IsHistory;
    ConsumesNext(st, w, c);
    var w' := w.(a := RunStep(st.sha, w.a, c).value);
    assert w'.a == Send(Popped(w.a), Auth(c.signature)).(phase := AwaitAuth, helloFrom := Some(w.b.out[0].deviceId));
    PoppedHolds(w.a, w'.a, st.b, st.v, w.b, w.aCtl);
    ScriptExtends(st.a, st.v, w.a, w'.a, Auth(c.signature));
    StoreFrame(st.sha, st.a, st.b, st.v, w.a, w'.a);
    OpeningSendLinks(st, w, w', Auth(c.signature));
    hide OutScript, InboxHolds;
    Assembled(st, w, w');
  }

  /** The summary a device sends describes the disk it started from. */
  lemma SummaryIsFit(st: Setting, w: World)
    requires Inv(st, w) && w.a.phase == AwaitAuth
    ensures SummaryFits(st.a.tables, st.v, SummaryOf(w.a))
    ensures w.a.vaultId.Some? ==> w.a.vaultId.value in w.a.disk.tables.vaults
  {
    hide Link, GoodSetting, CompletionFacts, IsHistory, Sound, HistoryKept, RowsAgree, VaultClosed, InboxHolds;
  }

  lemma AuthKeeps(st: Setting, w: World, c: Choice)
    requires Inv(st, w) && w.a.phase == AwaitAuth && c.decodes && c.trusted && RunStep(st.sha, w.a, c).Some?
    ensures Inv(st, w.(a := RunStep(st.sha, w.a, c).value))
  {
    hide Link, StoreFacts, GoodSetting, CompletionFacts, IsHistory, SummaryFits;
    ConsumesNext(st, w, c);
    SummaryIsFit(st, w);
    var w' := w.(a := RunStep(st.sha, w.a, c).value);
    assert w'.a == Send(Popped(w.a).(remote := w.a.helloFrom), SummaryOf(w.a)).(phase := AwaitSummary);
    PoppedHolds(w.a, w'.a, st.b, st.v, w.b, w.aCtl);
    ScriptExtends(st.a, st.v, w.a, w'.a, SummaryOf(w.a));
    StoreFrame(st.sha, st.a, st.b, st.v, w.a, w'.a);
    OpeningSendLinks(st, w, w', SummaryOf(w.a));
    hide OutScript, InboxHolds;
    Assembled(st, w, w');
  }

  lemma HistoryPrefix(t: Tables, u: Tables, v: VaultId, h: seq<HistoryEntry>)
    requires IsHistory(t, v, h) && t.rows == u.rows && t.parents == u.parents
    ensures IsHistory(u, v, h)
  {
    assert forall id :: ParentsOf(t, id) == ParentsOf(u, id);
  }

  /** Adoption adds the vault's row and nothing else. */
  lemma {:induction false} AdoptedDisk(sha: Digest, d: Disk, v: VaultId, name: string)
    requires Sound(sha, d)
    ensures var d' := Replay(sha, d, AdoptVault(d.tables, v, name).steps);
      && Sound(sha, d') && d'.blobs == d.blobs
      && d'.tables == if v in d.tables.vaults then d.tables else d.tables.(vaults := d.tables.vaults[v := Vault(name, None)])
  {
    if v !in d.tables.vaults {
      NewVaultKeeps(sha, d, v, name);
      hide Sound;
      RunStmtsAppend(d.tables, [], UpsertVault(v, Vault(name, None)));
      OneStep(sha, d, Commit([UpsertVault(v, Vault(name, None))]));
    }
  }

  /** The disk a device has once the vault is settled: its own, or its own with the adopted vault. */
  lemma SettledStore(st: Setting, x: Side, x': Side, name: string)
    requires StoreFacts(st.sha, st.a, st.b, st.v, x) && x.disk == st.a && Rank(x.phase) < 4 && Rank(x'.phase) >= 4
    requires x'.received == x.received
    requires x'.disk == if st.v in st.a.tables.vaults then st.a else Replay(st.sha, st.a, AdoptVault(st.a.tables, st.v, name).steps)
    ensures StoreFacts(st.sha, st.a, st.b, st.v, x')
    ensures x'.disk.tables.rows == st.a.tables.rows && x'.disk.tables.parents == st.a.tables.parents
  {
    AdoptedDisk(st.sha, st.a, st.v, name);
    SameHistory(st.a.tables, x'.disk.tables, st.a.tables, st.b.tables, st.v);
    hide Sound, HistoryKept, RowsAgree, VaultClosed;
  }

  /** Revisions and edges decide everything the session says about a history. */
  lemma SameHistory(t: Tables, t': Tables, own: Tables, peer: Tables, v: VaultId)
    requires t'.rows == t.rows && t'.parents == t.parents
    ensures HistoryKept(own, t) ==> HistoryKept(own, t')
    ensures RowsAgree(t, peer) ==> RowsAgree(t', peer)
    ensures VaultClosed(t, v) ==> VaultClosed(t', v)
  {
    assert forall id :: ParentsOf(t, id) == ParentsOf(t', id);
  }

  /** Either side may be the one without a vault: the session settles on the one that exists. */
  lemma SettlesOnVault(sha: Digest, d: Disk, peer: Tables, v: VaultId, x: Side, m: Message, c: Choice)
    requires x.phase == AwaitSummary && x.disk == d && x.vaultId == StartVault(d, v) && SummaryFits(peer, v, m)
    requires v != EMPTY_VAULT_ID && (v in d.tables.vaults || v in peer.vaults) && ConsumeSummary(sha, x, m, c).Some?
    ensures var disk := if v in d.tables.vaults then d else Replay(sha, d, AdoptVault(d.tables, v, m.vaultName).steps);
      && IsHistory(disk.tables, v, c.history) && m.headRevisionId == HeadOf(peer, v)
      && ConsumeSummary(sha, x, m, c).value
         == Send(x, HistorySummary(v, c.history)).(phase := AwaitHistory, vaultId := Some(v), disk := disk, remoteHead := m.headRevisionId)
  {
    hide IsHistory, Replay, AdoptVault;
  }

  lemma SummaryFacts(st: Setting, w: World)
    requires Inv(st, w) && w.a.phase == AwaitSummary && Rank(w.b.phase) >= 3 && |w.b.out| >= 3
    ensures w.a.disk == st.a && w.a.vaultId == StartVault(st.a, st.v) && SummaryFits(st.b.tables, st.v, w.b.out[2])
    ensures st.v != EMPTY_VAULT_ID && (st.v in st.a.tables.vaults || st.v in st.b.tables.vaults)
  {
    hide Link, CompletionFacts, IsHistory, Sound, HistoryKept, RowsAgree, VaultClosed, InboxHolds, SizeFaithful, SummaryFits;
    hide AfterWants, ExpectedFacts, HeadHeard;
  }

  lemma SummaryKeeps(st: Setting, w: World, c: Choice)
    requires Inv(st, w) && w.a.phase == AwaitSummary && c.decodes && c.trusted && RunStep(st.sha, w.a, c).Some?
    ensures Inv(st, w.(a := RunStep(st.sha, w.a, c).value))
  {
    hide Link, CompletionFacts, IsHistory, StoreFacts, GoodSetting, SummaryFits, FirstAwaited, AdoptVault, Replay;
    ConsumesNext(st, w, c);
    var w' := w.(a := RunStep(st.sha, w.a, c).value);
    var m := w.b.out[2];
    SummaryFacts(st, w);
    SettlesOnVault(st.sha, st.a, st.b.tables, st.v, Popped(w.a), m, c);
    SettledStore(st, w.a, w'.a, m.vaultName);
    HistoryPrefix(w'.a.disk.tables, st.a.tables, st.v, c.history);
    PoppedHolds(w.a, w'.a, st.b, st.v, w.b, w.aCtl);
    ScriptExtends(st.a, st.v, w.a, w'.a, HistorySummary(st.v, c.history));
    OpeningSendLinks(st, w, w', HistorySummary(st.v, c.history));
    Assembled(st, w, w');
  }

  lemma {:induction false} HonestHistory(t: Tables, v: VaultId, es: seq<HistoryEntry>)
    requires IsHistory(t, v, es)
    ensures HistoryGraph(es) == VaultGraph(t, v)
  {
    var g, h := HistoryGraph(es), VaultGraph(t, v);
    forall id
      ensures id in g <==> id in h
      ensures id in g ==> g[id] == h[id]
    {
      HistoryGraphKeys(es, id);
      if i :| 0 <= i < |es| && es[i].revisionId == id {
        HistoryGraphAt(es, i);
      }
    }
  }

  /** A vault's part of an acyclic history is acyclic. */
  lemma VaultGraphAcyclic(sha: Digest, d: Disk, v: VaultId)
    requires Sound(sha, d)
    ensures Acyclic(VaultGraph(d.tables, v))
  {
    AcyclicSubgraph(VaultGraph(d.tables, v), GraphOf(d.tables));
  }

  /** An honest summary is accepted. */
  lemma {:induction false} HonestHistoryAccepted(sha: Digest, d: Disk, v: VaultId, es: seq<HistoryEntry>)
    requires Sound(sha, d) && IsHistory(d.tables, v, es)
    ensures AcceptableHistory(es) && HistoryGraph(es) == VaultGraph(d.tables, v)
  {
    HonestHistory(d.tables, v, es);
    VaultGraphAcyclic(sha, d, v);
  }

  lemma SameRowsSameKeys(d: Disk, x: Side, sha: Digest, peer: Disk, v: VaultId)
    requires StoreFacts(sha, d, peer, v, x) && x.received == []
    ensures VaultGraph(x.disk.tables, v).Keys == VaultGraph(d.tables, v).Keys
  {
    hide Sound, RowsAgree, VaultClosed;
  }

  lemma HistoryKeeps(st: Setting, w: World, c: Choice)
    requires Inv(st, w) && w.a.phase == AwaitHistory && c.decodes && c.trusted && RunStep(st.sha, w.a, c).Some?
    ensures Inv(st, w.(a := RunStep(st.sha, w.a, c).value))
  {
    hide Link, CompletionFacts, IsHistory, StoreFacts, GoodSetting, IsWantList, VaultGraph, HeadOf, RunStep;
    var w' := w.(a := RunStep(st.sha, w.a, c).value);
    HistoryConsumed(st, w, c);
    StoreFrame(st.sha, st.a, st.b, st.v, w.a, w'.a);
    PoppedHolds(w.a, w'.a, st.b, st.v, w.b, w.aCtl);
    ScriptExtends(st.a, st.v, w.a, w'.a, WantRevisions(st.v, c.wanted));
    OpeningSendLinks(st, w, w', WantRevisions(st.v, c.wanted));
    assert c.wanted[0..] == c.wanted;
    Assembled(st, w, w');
  }

  /** What the run makes of an honest peer's summary. */
  lemma HistoryConsumed(st: Setting, w: World, c: Choice)
    requires Inv(st, w) && w.a.phase == AwaitHistory && c.decodes && c.trusted && RunStep(st.sha, w.a, c).Some?
    ensures RunStep(st.sha, w.a, c).value == Send(Popped(w.a), WantRevisions(st.v, c.wanted))
      .(phase := AwaitWants, remoteGraph := VaultGraph(st.b.tables, st.v), wanted := c.wanted, expected := SeqToSet(c.wanted))
    ensures WantFacts(st.a, st.b, st.v, c.wanted) && w.a.received == []
    ensures w.aCtl >= Rank(w.a.phase)
  {
    hide Link, CompletionFacts, IsHistory, Sound, StoreFacts, RowsAgree, VaultClosed, SizeFaithful, IsWantList, AcceptableHistory;
    ConsumesNext(st, w, c);
    HonestHistoryAccepted(st.sha, st.b, st.v, w.b.out[3].revisions);
    if Active(w.b) {
      ServingNeedsWants(st, w);
    }
    RestingTakesWants(st.b, st.chunkBytes, SenderOf(w.b, w.aCtl, w.aBulk), ReceiverOf(w.a, w.bCtl), []);
    SameRowsSameKeys(st.a, w.a, st.sha, st.b, st.v);
  }

  lemma WantsKeeps(st: Setting, w: World, c: Choice)
    requires Inv(st, w) && w.a.phase == AwaitWants && c.decodes && c.trusted && RunStep(st.sha, w.a, c).Some?
    ensures Inv(st, w.(a := RunStep(st.sha, w.a, c).value))
  {
    hide Link, IsHistory, StoreFacts, WantFacts, Sound, RowsAgree, VaultClosed, SizeFaithful;
    ConsumesNext(st, w, c);
    var w' := w.(a := RunStep(st.sha, w.a, c).value);
    ActivateLink(st.a, st.chunkBytes, SenderOf(w.a, w.bCtl, w.bBulk), ReceiverOf(w.b, w.aCtl));
    assert w.b.out[4].revisionIds == w.b.wanted;
    assert SenderOf(w'.a, w'.bCtl, w'.bBulk) == SenderOf(w.a, w.bCtl, w.bBulk).(active := true, toServe := w.b.wanted);
    assert ReceiverOf(w'.a, w'.bCtl) == ReceiverOf(w.a, w.bCtl);
    StoreFrame(st.sha, st.a, st.b, st.v, w.a, w'.a);
    PoppedHolds(w.a, w'.a, st.b, st.v, w.b, w.aCtl);
    hide InboxHolds;
    Assembled(st, w, w');
  }

  lemma InboxUnmoved(x: Side, x': Side, out: seq<Message>, read: nat)
    requires InboxHolds(x, out, read) && x'.inbox == x.inbox && Consumed(x'.phase) == Consumed(x.phase)
    ensures InboxHolds(x', out, read)
  {
  }

  lemma CompleteKeeps(st: Setting, w: World, c: Choice)
    requires Inv(st, w) && w.a.phase == Transferring && RunStep(st.sha, w.a, c).Some?
    ensures Inv(st, w.(a := RunStep(st.sha, w.a, c).value))
  {
    hide Link, IsHistory, StoreFacts, GoodSetting, WantFacts, SummaryFits, Headers, Acks, HasComplete, InboxHolds;
    var w' := w.(a := RunStep(st.sha, w.a, c).value);
    InboxUnmoved(w.a, w'.a, w.b.out, w.aCtl);
    SendReads(w.a.out, w.bCtl, SyncComplete(st.v));
    assert Headers(w.a.out[w.bCtl..]) + [] == Headers(w.a.out[w.bCtl..]);
    assert Acks(w.a.out[w.bCtl..]) + [] == Acks(w.a.out[w.bCtl..]);
    assert SenderOf(w'.a, w'.bCtl, w'.bBulk) == SenderOf(w.a, w.bCtl, w.bBulk);
    assert ReceiverOf(w'.a, w'.bCtl) == ReceiverOf(w.a, w.bCtl);
    StoreFrame(st.sha, st.a, st.b, st.v, w.a, w'.a);
    Assembled(st, w, w');
  }

  lemma FinishKeeps(st: Setting, w: World, c: Choice)
    requires Inv(st, w) && w.a.phase == AwaitComplete && RunStep(st.sha, w.a, c).Some?
    ensures Inv(st, w.(a := RunStep(st.sha, w.a, c).value))
  {
    hide Link, IsHistory, StoreFacts, GoodSetting, WantFacts, SummaryFits;
    var w' := w.(a := RunStep(st.sha, w.a, c).value);
    assert SenderOf(w'.a, w'.bCtl, w'.bBulk) == SenderOf(w.a, w.bCtl, w.bBulk);
    assert ReceiverOf(w'.a, w'.bCtl) == ReceiverOf(w.a, w.bCtl);
    StoreFrame(st.sha, st.a, st.b, st.v, w.a, w'.a);
    Assembled(st, w, w');
  }

  lemma RunKeeps(st: Setting, w: World, c: Choice)
    requires Inv(st, w) && StepA(st, w, RunMove(c)).Some?
    ensures Inv(st, StepA(st, w, RunMove(c)).value)
  {
    hide Inv;
    match w.a.phase
    case Unstarted => StartKeeps(st, w, c);
    case AwaitHello => HelloKeeps(st, w, c);
    case AwaitAuth => AuthKeeps(st, w, c);
    case AwaitSummary => SummaryKeeps(st, w, c);
    case AwaitHistory => HistoryKeeps(st, w, c);
    case AwaitWants => WantsKeeps(st, w, c);
    case Transferring => CompleteKeeps(st, w, c);
    case AwaitComplete => FinishKeeps(st, w, c);
    case Finished =>
    case Failed =>
  }
}
