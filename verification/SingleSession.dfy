/**
 One device in a session with a peer that may send anything, in any order, at any time. Nothing about
 the vault leaves the device before the peer is trusted, no head moves, and the store stays sound:
 every revision it takes in has the bytes its hash names and all its parents.
 */
module SingleSession {
  import opened Basics
  import opened Reachability
  import opened RemoteHistory
  import opened Framing
  import opened Chunks
  import opened Store
  import opened Engine
  import opened EngineRuns
  import opened Messages
  import opened Inbound
  import opened Session

  datatype Event = ControlIn(message: Message) | BulkIn(frame: ChunkFrame) | RunGoes(choice: Choice) | Serves | Ingests

  ghost function AfterEvent(sha: Digest, chunkBytes: nat, s: Side, e: Event): Option<Side>
    requires chunkBytes > 0
  {
    match e
    case ControlIn(m) => Some(OnControl(s, m))
    case BulkIn(f) => Some(OnBulk(s, f))
    case RunGoes(c) => RunStep(sha, s, c)
    case Serves => ServeStep(chunkBytes, s)
    case Ingests => IngestStep(sha, s)
  }

  /** The states of a session from its start, whatever the peer and the scheduler do. */
  ghost predicate IsLife(sha: Digest, chunkBytes: nat, hello: Message, vaultId: Option<VaultId>, d: Disk, ss: seq<Side>, es: seq<Event>)
    requires chunkBytes > 0
  {
    && |ss| == |es| + 1 && ss[0] == FreshSide(hello, vaultId, d) && hello.Hello?
    && forall i :: 0 <= i < |es| ==> AfterEvent(sha, chunkBytes, ss[i], es[i]) == Some(ss[i + 1])
  }

  predicate VaultBearing(m: Message) {
    m.VaultSummary? || m.HistorySummary? || m.WantRevisions? || m.RevisionHeader? || m.RevisionAck? || m.SyncComplete?
  }

  // ---- frames ----------------------------------------------------------------------

  /** What reading a control message can change. */
  lemma OnControlFrame(s: Side, m: Message)
    ensures var s' := OnControl(s, m);
      && s'.disk == s.disk && s'.phase == s.phase && s'.remote == s.remote && s'.helloFrom == s.helloFrom
      && s'.hello == s.hello && s'.bulkOut == s.bulkOut && s.out <= s'.out && (s.outgoing.None? ==> s'.outgoing.None?)
    ensures s.remote.None? && s.receiver == s.receiver.(assemblers := map[], ready := [], refused := []) ==>
      var s' := OnControl(s, m); s'.receiver == s.receiver && s'.out == s.out
  {
    hide OnHeader, RejectAll;
    if m.RevisionHeader? {
      var r := OnHeader(s.receiver, m.header);
      RejectAllFrame(s.(receiver := r.(refused := [])), r.refused);
    }
  }

  lemma OnBulkFrame(s: Side, f: ChunkFrame)
    ensures var s' := OnBulk(s, f);
      && s'.disk == s.disk && s'.phase == s.phase && s'.remote == s.remote && s'.helloFrom == s.helloFrom
      && s'.hello == s.hello && s'.bulkOut == s.bulkOut && s.out <= s'.out && s'.outgoing == s.outgoing
    ensures s.receiver == s.receiver.(assemblers := map[], ready := [], refused := []) ==>
      var s' := OnBulk(s, f); s'.out == s.out && s'.receiver == s'.receiver.(assemblers := map[], ready := [], refused := [])
  {
    hide RejectAll;
    var r := OnFrame(s.receiver, f);
    RejectAllFrame(s.(receiver := r.(refused := [])), r.refused);
  }

  // ---- nothing about the vault before trust ----------------------------------------

  ghost predicate SaysNothing(out: seq<Message>) {
    forall i :: 0 <= i < |out| ==> !VaultBearing(out[i])
  }

  ghost predicate Early(p: Phase) {
    p == Unstarted || p == AwaitHello || p == AwaitAuth || p == Failed
  }

  /** Until the peer is known the session is at its opening, and has received and sent nothing of the vault. */
  ghost predicate Guarded(s: Side) {
    && s.hello.Hello?
    && (s.phase == AwaitAuth ==> s.helloFrom.Some?)
    && (s.remote.Some? ==> !Early(s.phase) || s.phase == Failed)
    && (s.remote.None? ==>
          && Early(s.phase) && SaysNothing(s.out) && s.bulkOut == [] && s.outgoing.None?
          && s.receiver == s.receiver.(assemblers := map[], ready := [], refused := []))
  }

  /** What one piece of the run may do: only verification makes the peer known. */
  ghost predicate Proceeds(s: Side, s': Side, c: Choice) {
    && Guarded(s') && s.out <= s'.out
    && (s'.remote == s.remote || (s.remote.None? && s.phase == AwaitAuth && c.decodes && c.trusted))
  }

  lemma HelloGuarded(s: Side, m: Message, c: Choice)
    requires Guarded(s) && s.phase == AwaitHello && m.Hello?
    ensures Proceeds(s, ConsumeHello(s, m, c), c)
  {
    hide SaysNothing, VaultBearing;
    StillNothing(s.out, Error(UnsupportedVersion, ""));
    StillNothing(s.out, Auth(c.signature));
  }

  lemma StillNothing(out: seq<Message>, m: Message)
    requires m.Error? || m.Auth? || m.Hello?
    ensures SaysNothing(out) ==> SaysNothing(out + [m])
  {
  }

  lemma AuthGuarded(s: Side, c: Choice)
    requires Guarded(s) && s.phase == AwaitAuth
    ensures Proceeds(s, ConsumeAuth(s, c), c)
  {
    hide SummaryOf, SaysNothing, VaultBearing;
    StillNothing(s.out, Error(Unauthorized, ""));
  }

  lemma KnownGuarded(s: Side, s': Side, c: Choice)
    requires Guarded(s) && !Early(s.phase) && s'.remote == s.remote && s'.hello == s.hello && s.out <= s'.out
    requires !Early(s'.phase) || s'.phase == Failed
    ensures Proceeds(s, s', c)
  {
  }

  lemma ConsumeGuarded(sha: Digest, s: Side, m: Message, c: Choice)
    requires Guarded(s) && Awaited(s.phase, m) && Consume(sha, s, m, c).Some?
    ensures Proceeds(s, Consume(sha, s, m, c).value, c)
  {
    hide IsHistory, AcceptableHistory, IsWantList, VaultGraph, HistoryGraph, Replay, AdoptVault, Proceeds, Guarded, ConsumeHello, ConsumeAuth;
    if s.phase == AwaitHello {
      HelloGuarded(s, m, c);
    } else if s.phase == AwaitAuth {
      AuthGuarded(s, c);
    } else {
      KnownGuarded(s, Consume(sha, s, m, c).value, c);
    }
  }

  lemma PoppedGuarded(s: Side, inbox: seq<Message>)
    requires Guarded(s)
    ensures Guarded(s.(inbox := inbox))
  {
  }

  lemma RunStepGuarded(sha: Digest, s: Side, c: Choice)
    requires Guarded(s) && RunStep(sha, s, c).Some?
    ensures Proceeds(s, RunStep(sha, s, c).value, c)
  {
    hide Consume;
    var i := FirstAwaited(s.phase, s.inbox);
    assert !VaultBearing(s.hello);
    if i.Some? {
      var popped := s.(inbox := s.inbox[..i.value] + s.inbox[i.value + 1..]);
      PoppedGuarded(s, popped.inbox);
      if Consume(sha, popped, s.inbox[i.value], c).Some? {
        ConsumeGuarded(sha, popped, s.inbox[i.value], c);
      }
    }
  }

  lemma ServeStepGuarded(chunkBytes: nat, s: Side)
    requires chunkBytes > 0 && Guarded(s) && ServeStep(chunkBytes, s).Some?
    ensures var s' := ServeStep(chunkBytes, s).value;
      Guarded(s') && s.out <= s'.out && s'.remote == s.remote && s'.disk == s.disk
  {
    hide SlicesOf, HeaderFor, SaysNothing, VaultBearing;
  }

  lemma IngestStepGuarded(sha: Digest, s: Side)
    requires Guarded(s) && IngestStep(sha, s).Some?
    ensures var s' := IngestStep(sha, s).value;
      && Guarded(s') && s.out <= s'.out && s'.remote == s.remote && s.remote.Some? && s.receiver.ready != []
      && s'.disk == Replay(sha, s.disk, IngestReceivedRevision(sha, s.disk.tables, InputOf(s, s.receiver.ready[0])).steps)
  {
    hide IngestStep, SaysNothing, Replay, IngestReceivedRevision, InputOf;
    IngestStepFrame(sha, s);
  }

  lemma IngestStepFrame(sha: Digest, s: Side)
    requires IngestStep(sha, s).Some?
    ensures s.remote.Some? && s.receiver.ready != []
    ensures var s' := IngestStep(sha, s).value;
      && s'.disk == Replay(sha, s.disk, IngestReceivedRevision(sha, s.disk.tables, InputOf(s, s.receiver.ready[0])).steps)
      && s.out <= s'.out && s'.remote == s.remote && s'.phase == s.phase && s'.hello == s.hello && s'.helloFrom == s.helloFrom
  {
    hide Replay, IngestReceivedRevision, InputOf;
  }

  lemma EventGuarded(sha: Digest, chunkBytes: nat, s: Side, e: Event)
    requires chunkBytes > 0 && Guarded(s) && AfterEvent(sha, chunkBytes, s, e).Some?
    ensures var s' := AfterEvent(sha, chunkBytes, s, e).value;
      && Guarded(s') && s.out <= s'.out
      && (s'.remote != s.remote ==> e.RunGoes? && s.phase == AwaitAuth && e.choice.decodes && e.choice.trusted)
  {
    hide OnControl, OnBulk, RunStep, ServeStep, IngestStep, SaysNothing;
    match e
    case ControlIn(m) => OnControlFrame(s, m);
    case BulkIn(f) => OnBulkFrame(s, f);
    case RunGoes(c) => RunStepGuarded(sha, s, c);
    case Serves => ServeStepGuarded(chunkBytes, s);
    case Ingests => IngestStepGuarded(sha, s);
  }

  /** The peer is verified: its signature checked and its identity accepted. */
  ghost predicate Trusts(s: Side, e: Event) {
    e.RunGoes? && s.phase == AwaitAuth && e.choice.decodes && e.choice.trusted
  }

  /** The peer became trusted at some event among the first `n`, with at most `sent` messages sent before. */
  ghost predicate TrustedBefore(ss: seq<Side>, es: seq<Event>, n: nat, sent: nat)
    requires |ss| == |es| + 1 && n <= |es|
  {
    exists k :: 0 <= k < n && Trusts(ss[k], es[k]) && |ss[k].out| <= sent
  }

  lemma {:induction false} LifeGuarded(sha: Digest, chunkBytes: nat, hello: Message, vaultId: Option<VaultId>, d: Disk,
      ss: seq<Side>, es: seq<Event>, n: nat)
    requires chunkBytes > 0 && IsLife(sha, chunkBytes, hello, vaultId, d, ss, es) && n <= |es|
    ensures Guarded(ss[n])
    ensures ss[n].remote.Some? ==> TrustedBefore(ss, es, n, |ss[n].out|)
  {
    hide AfterEvent, Guarded, Trusts;
    if n == 0 {
      FreshIsGuarded(hello, vaultId, d);
    } else {
      LifeGuarded(sha, chunkBytes, hello, vaultId, d, ss, es, n - 1);
      assert AfterEvent(sha, chunkBytes, ss[n - 1], es[n - 1]) == Some(ss[n - 1 + 1]);
      EventGuarded(sha, chunkBytes, ss[n - 1], es[n - 1]);
      if ss[n].remote.Some? {
        if ss[n - 1].remote.Some? {
          TrustStays(ss, es, n - 1, |ss[n - 1].out|, |ss[n].out|);
        } else {
          TrustedNow(ss[n - 1], es[n - 1], ss[n]);
        }
      }
    }
  }

  lemma TrustedNow(s: Side, e: Event, s': Side)
    requires s'.remote != s.remote ==> e.RunGoes? && s.phase == AwaitAuth && e.choice.decodes && e.choice.trusted
    requires s'.remote != s.remote
    ensures Trusts(s, e)
  {
  }

  lemma TrustStays(ss: seq<Side>, es: seq<Event>, n: nat, sent: nat, more: nat)
    requires |ss| == |es| + 1 && n < |es| && TrustedBefore(ss, es, n, sent) && sent <= more
    ensures TrustedBefore(ss, es, n + 1, more)
  {
    hide Trusts;
  }

  lemma FreshIsGuarded(hello: Message, vaultId: Option<VaultId>, d: Disk)
    requires hello.Hello?
    ensures Guarded(FreshSide(hello, vaultId, d)) && FreshSide(hello, vaultId, d).remote.None?
  {
  }

  lemma SilentWhileUnknown(s: Side, i: nat)
    requires Guarded(s) && i < |s.out| && VaultBearing(s.out[i])
    ensures s.remote.Some?
  {
  }

  /**
   Whatever the peer sends: a message that says anything about the vault is preceded by the moment the
   peer was verified, and at that moment it had not been sent yet.
   */
  lemma {:induction false} TrustComesFirst(sha: Digest, chunkBytes: nat, hello: Message, vaultId: Option<VaultId>, d: Disk,
      ss: seq<Side>, es: seq<Event>, n: nat, i: nat)
    requires chunkBytes > 0 && IsLife(sha, chunkBytes, hello, vaultId, d, ss, es) && n <= |es|
    requires i < |ss[n].out| && VaultBearing(ss[n].out[i])
    ensures TrustedBefore(ss, es, n, i)
  {
    hide AfterEvent, Guarded, Trusts, VaultBearing;
    LifeGuarded(sha, chunkBytes, hello, vaultId, d, ss, es, n);
    SilentWhileUnknown(ss[n], i);
    if n > 0 {
      LifeGuarded(sha, chunkBytes, hello, vaultId, d, ss, es, n - 1);
      assert AfterEvent(sha, chunkBytes, ss[n - 1], es[n - 1]) == Some(ss[n - 1 + 1]);
      EventGuarded(sha, chunkBytes, ss[n - 1], es[n - 1]);
      if i < |ss[n - 1].out| {
        TrustComesFirst(sha, chunkBytes, hello, vaultId, d, ss, es, n - 1, i);
        TrustStays(ss, es, n - 1, i, i);
      } else if ss[n - 1].remote.Some? {
        TrustStays(ss, es, n - 1, |ss[n - 1].out|, i);
      } else {
        TrustedNow(ss[n - 1], es[n - 1], ss[n]);
      }
    }
  }

  /** The peer was verified among the first `n` events, with not one frame out and nothing said of the vault. */
  ghost predicate TrustedInSilence(ss: seq<Side>, es: seq<Event>, n: nat)
    requires |ss| == |es| + 1 && n <= |es|
  {
    exists k :: 0 <= k < n && Trusts(ss[k], es[k]) && ss[k].bulkOut == [] && SaysNothing(ss[k].out)
  }

  lemma SilentAtTrust(s: Side, e: Event)
    requires Guarded(s) && Trusts(s, e)
    ensures s.bulkOut == [] && SaysNothing(s.out)
  {
    hide SaysNothing;
  }

  lemma QuietWhileUnknown(s: Side)
    requires Guarded(s) && s.bulkOut != []
    ensures s.remote.Some?
  {
    hide SaysNothing;
  }

  /** Whatever the peer sends: not one frame leaves on the bulk channel before the peer was verified. */
  lemma BytesComeAfterTrust(sha: Digest, chunkBytes: nat, hello: Message, vaultId: Option<VaultId>, d: Disk,
      ss: seq<Side>, es: seq<Event>, n: nat)
    requires chunkBytes > 0 && IsLife(sha, chunkBytes, hello, vaultId, d, ss, es) && n <= |es| && ss[n].bulkOut != []
    ensures TrustedInSilence(ss, es, n)
  {
    hide AfterEvent, Guarded, Trusts, SaysNothing;
    LifeGuarded(sha, chunkBytes, hello, vaultId, d, ss, es, n);
    QuietWhileUnknown(ss[n]);
    var k :| 0 <= k < n && Trusts(ss[k], es[k]) && |ss[k].out| <= |ss[n].out|;
    LifeGuarded(sha, chunkBytes, hello, vaultId, d, ss, es, k);
    SilentAtTrust(ss[k], es[k]);
  }

  // ---- the store -------------------------------------------------------------------

  /** No head moved, and a vault that appeared has none. */
  ghost predicate NoHeadMoved(t: Tables, u: Tables) {
    && (forall v :: v in t.vaults ==> v in u.vaults && u.vaults[v] == t.vaults[v])
    && (forall v :: v in u.vaults && v !in t.vaults ==> u.vaults[v].head == None)
    && u.headEvents == t.headEvents
  }

  /** Every row that appeared was received from the device that was verified. */
  ghost predicate NewRowsFrom(t: Tables, u: Tables, remote: Option<DeviceId>) {
    forall id :: id in u.rows && id !in t.rows ==>
      remote.Some? && u.rows[id].operation == Received && u.rows[id].origin == remote.value
  }

  ghost predicate StoreKept(sha: Digest, d: Disk, s: Side) {
    && Sound(sha, s.disk) && HistoryKept(d.tables, s.disk.tables) && NoHeadMoved(d.tables, s.disk.tables)
    && NewRowsFrom(d.tables, s.disk.tables, s.remote)
  }

  lemma StoreUnchanged(sha: Digest, d: Disk, s: Side, s': Side)
    requires StoreKept(sha, d, s) && s'.disk == s.disk && (s'.remote == s.remote || s.remote.None?)
    ensures StoreKept(sha, d, s')
  {
    hide Sound, HistoryKept, NoHeadMoved;
  }

  lemma IngestKeepsStore(sha: Digest, d: Disk, s: Side, s': Side, i: ReceivedInput)
    requires SizeFaithful(sha) && StoreKept(sha, d, s) && s.remote == Some(i.fromDeviceId) && s'.remote == s.remote
    requires s'.disk == Replay(sha, s.disk, IngestReceivedRevision(sha, s.disk.tables, i).steps)
    ensures StoreKept(sha, d, s')
  {
    hide Sound, HistoryKept, NoHeadMoved, NewRowsFrom, Replay, IngestReceivedRevision, SizeFaithful;
    IngestSound(sha, s.disk, i);
    IngestTables(sha, s.disk, i);
    var e := IngestReceivedRevision(sha, s.disk.tables, i);
    if e.outcome.Stored? {
      IngestIsVerbatim(sha, s.disk, i);
      Grew(d.tables, s.disk.tables, s'.disk.tables, i, s.remote);
    } else {
      Stayed(d.tables, s.disk.tables, s'.disk.tables, s.remote);
    }
  }

  lemma {:induction false} IngestSound(sha: Digest, d: Disk, i: ReceivedInput)
    requires SizeFaithful(sha) && Sound(sha, d)
    ensures Sound(sha, Replay(sha, d, IngestReceivedRevision(sha, d.tables, i).steps))
  {
    hide Sound, SizeFaithful, IngestReceivedRevision;
    IngestThroughout(sha, d, i);
    var steps := IngestReceivedRevision(sha, d.tables, i).steps;
    assert steps[..|steps|] == steps;
  }

  /** An ingest that does not store changes no table. */
  lemma {:induction false} IngestTables(sha: Digest, d: Disk, i: ReceivedInput)
    ensures var e := IngestReceivedRevision(sha, d.tables, i);
      !e.outcome.Stored? ==> Replay(sha, d, e.steps).tables == d.tables
  {
    hide Autocommit, SaveStmts;
    OneStep(sha, d, PutBlob(i.bytes));
  }

  lemma Stayed(t: Tables, u: Tables, u': Tables, remote: Option<DeviceId>)
    requires HistoryKept(t, u) && NoHeadMoved(t, u) && NewRowsFrom(t, u, remote) && u' == u
    ensures HistoryKept(t, u') && NoHeadMoved(t, u') && NewRowsFrom(t, u', remote)
  {
  }

  lemma Grew(t: Tables, u: Tables, u': Tables, i: ReceivedInput, remote: Option<DeviceId>)
    requires HistoryKept(t, u) && NoHeadMoved(t, u) && NewRowsFrom(t, u, remote) && remote == Some(i.fromDeviceId)
    requires HistoryKept(u, u') && u'.rows.Keys == u.rows.Keys + {i.revisionId}
    requires u'.rows[i.revisionId] == RowOf(ReceivedRevision(i)) && u'.vaults == u.vaults && u'.headEvents == u.headEvents
    ensures HistoryKept(t, u') && NoHeadMoved(t, u') && NewRowsFrom(t, u', remote)
  {
  }

  lemma AdoptKeepsStore(sha: Digest, d: Disk, s: Side, disk: Disk, v: VaultId, name: string)
    requires StoreKept(sha, d, s) && disk == Replay(sha, s.disk, AdoptVault(s.disk.tables, v, name).steps)
    ensures StoreKept(sha, d, s.(disk := disk))
  {
    hide Sound, HistoryKept, NewRowsFrom;
    if v !in s.disk.tables.vaults {
      var u := UpsertVault(v, Vault(name, None));
      OneStep(sha, s.disk, Commit([u]));
      RunStmtsAppend(s.disk.tables, [], u);
      NewVaultKeeps(sha, s.disk, v, name);
      AdoptedTables(d.tables, s.disk.tables, disk.tables, s.remote);
    }
  }

  lemma AdoptedTables(t: Tables, u: Tables, u': Tables, remote: Option<DeviceId>)
    requires HistoryKept(t, u) && NewRowsFrom(t, u, remote) && u'.rows == u.rows && u'.parents == u.parents
    ensures HistoryKept(t, u') && NewRowsFrom(t, u', remote)
  {
  }

  lemma RunKeepsStore(sha: Digest, d: Disk, s: Side, c: Choice)
    requires Guarded(s) && StoreKept(sha, d, s) && RunStep(sha, s, c).Some?
    ensures StoreKept(sha, d, RunStep(sha, s, c).value)
  {
    hide Sound, HistoryKept, NoHeadMoved, NewRowsFrom, Replay, AdoptVault, Guarded, StoreKept;
    RunStepGuarded(sha, s, c);
    RunStepDisk(sha, s, c);
    var s' := RunStep(sha, s, c).value;
    if s'.disk == s.disk {
      StoreUnchanged(sha, d, s, s');
    } else {
      var v, name :| s'.disk == Replay(sha, s.disk, AdoptVault(s.disk.tables, v, name).steps);
      AdoptKeepsStore(sha, d, s, s'.disk, v, name);
      StoreUnchanged(sha, d, s.(disk := s'.disk), s');
    }
  }

  /** The run's one effect on the store: a device without a vault adopts the peer's. */
  lemma RunStepDisk(sha: Digest, s: Side, c: Choice)
    requires RunStep(sha, s, c).Some?
    ensures var s' := RunStep(sha, s, c).value;
      s'.disk == s.disk || exists v, name :: s'.disk == Replay(sha, s.disk, AdoptVault(s.disk.tables, v, name).steps)
  {
    hide IsHistory, AcceptableHistory, IsWantList, VaultGraph, HistoryGraph, Replay, AdoptVault, SummaryOf;
  }

  /**
   Whatever the peer sends, at every moment: the store is sound (closed, acyclic, every row backed by
   bytes of its hash and size), its earlier history is untouched, no head has moved, and whatever is
   new was received from the verified device.
   */
  lemma {:induction false} StoreKeptAlways(sha: Digest, chunkBytes: nat, hello: Message, vaultId: Option<VaultId>, d: Disk,
      ss: seq<Side>, es: seq<Event>, n: nat)
    requires chunkBytes > 0 && IsLife(sha, chunkBytes, hello, vaultId, d, ss, es) && n <= |es|
    requires SizeFaithful(sha) && Sound(sha, d)
    ensures StoreKept(sha, d, ss[n])
  {
    hide AfterEvent, Guarded, StoreKept, Sound, SizeFaithful;
    if n == 0 {
      FreshStoreKept(sha, d, ss[0]);
    } else {
      StoreKeptAlways(sha, chunkBytes, hello, vaultId, d, ss, es, n - 1);
      LifeGuarded(sha, chunkBytes, hello, vaultId, d, ss, es, n - 1);
      assert AfterEvent(sha, chunkBytes, ss[n - 1], es[n - 1]) == Some(ss[n - 1 + 1]);
      EventKeepsStore(sha, chunkBytes, d, ss[n - 1], es[n - 1]);
    }
  }

  lemma FreshStoreKept(sha: Digest, d: Disk, s: Side)
    requires Sound(sha, d) && s.disk == d
    ensures StoreKept(sha, d, s)
  {
    hide Sound;
  }

  lemma EventKeepsStore(sha: Digest, chunkBytes: nat, d: Disk, s: Side, e: Event)
    requires chunkBytes > 0 && Guarded(s) && StoreKept(sha, d, s) && SizeFaithful(sha)
    requires AfterEvent(sha, chunkBytes, s, e).Some?
    ensures StoreKept(sha, d, AfterEvent(sha, chunkBytes, s, e).value)
  {
    hide OnControl, OnBulk, RunStep, ServeStep, IngestStep, Guarded, StoreKept, SizeFaithful, InputOf;
    var s' := AfterEvent(sha, chunkBytes, s, e).value;
    match e
    case ControlIn(m) =>
      OnControlFrame(s, m);
      StoreUnchanged(sha, d, s, s');
    case BulkIn(f) =>
      OnBulkFrame(s, f);
      StoreUnchanged(sha, d, s, s');
    case RunGoes(c) => RunKeepsStore(sha, d, s, c);
    case Serves =>
      ServeStepGuarded(chunkBytes, s);
      StoreUnchanged(sha, d, s, s');
    case Ingests =>
      IngestStepGuarded(sha, s);
      InputNames(s);
      IngestKeepsStore(sha, d, s, s', InputOf(s, s.receiver.ready[0]));
  }

  lemma InputNames(s: Side)
    requires s.remote.Some? && s.receiver.ready != []
    ensures s.remote == Some(InputOf(s, s.receiver.ready[0]).fromDeviceId)
  {
  }

  /** What a stored revision that came in a session is: its bytes hash to the declared hash, its parents are stored. */
  lemma NewRevisionsGenuine(sha: Digest, d: Disk, s: Side, id: RevisionId)
    requires StoreKept(sha, d, s) && id in s.disk.tables.rows && id !in d.tables.rows
    ensures var row := s.disk.tables.rows[id];
      && row.hash in s.disk.blobs && sha(s.disk.blobs[row.hash]) == row.hash && |s.disk.blobs[row.hash]| == row.sizeBytes
      && (forall p :: p in ParentsOf(s.disk.tables, id) ==> p in s.disk.tables.rows)
      && s.remote == Some(row.origin)
  {
    hide Acyclic, HeadsStored, KeysResolve, LogsLinked, HistoryKept, NoHeadMoved;
    forall p | p in ParentsOf(s.disk.tables, id)
      ensures p in s.disk.tables.rows
    {
      assert Edge(GraphOf(s.disk.tables), id, p);
    }
  }

  // ---- what is asked for, received and sent ----------------------------------------

  /** Past the history exchange the peer's graph has been validated. */
  ghost predicate GraphChecked(s: Side) {
    s.phase in {AwaitWants, Transferring, AwaitComplete, Finished} ==> Acyclic(s.remoteGraph)
  }

  /** What counts as received is stored. */
  ghost predicate ReceivedStored(s: Side) {
    forall id :: id in s.received ==> id in s.disk.tables.rows
  }

  /** The peer said it took the revision. */
  ghost predicate AckHeard(es: seq<Event>, n: nat, id: RevisionId)
    requires n <= |es|
  {
    exists k :: 0 <= k < n && es[k].ControlIn? && es[k].message.RevisionAck? && es[k].message.ackId == id && es[k].message.accepted
  }

  /** What counts as sent was acknowledged. */
  ghost predicate SentAcknowledged(s: Side, es: seq<Event>, n: nat)
    requires n <= |es|
  {
    && (forall id :: id in s.sent ==> AckHeard(es, n, id))
    && (s.outgoing.Some? && s.outgoing.value.ack == Some(true) ==> AckHeard(es, n, s.outgoing.value.revisionId))
  }

  ghost predicate TransferFields(s: Side, s': Side) {
    s'.sent == s.sent && s'.received == s.received && s'.remoteGraph == s.remoteGraph && s'.phase == s.phase
  }

  lemma OnControlTransfers(s: Side, m: Message)
    ensures TransferFields(s, OnControl(s, m))
    ensures OnControl(s, m).outgoing == if m.RevisionAck? then OnAck(s, m.ackId, m.accepted).outgoing else s.outgoing
  {
    hide OnHeader, RejectAll;
    if m.RevisionHeader? {
      var r := OnHeader(s.receiver, m.header);
      RejectAllFrame(s.(receiver := r.(refused := [])), r.refused);
    }
  }

  lemma OnBulkTransfers(s: Side, f: ChunkFrame)
    ensures TransferFields(s, OnBulk(s, f)) && OnBulk(s, f).outgoing == s.outgoing
  {
    hide RejectAll, OnFrame;
    var r := OnFrame(s.receiver, f);
    RejectAllFrame(s.(receiver := r.(refused := [])), r.refused);
  }

  lemma ServeTransfers(chunkBytes: nat, s: Side)
    requires chunkBytes > 0 && ServeStep(chunkBytes, s).Some?
    ensures var s' := ServeStep(chunkBytes, s).value;
      && s'.received == s.received && s'.disk == s.disk && s'.remoteGraph == s.remoteGraph && (s'.phase == s.phase || s'.phase == Failed)
      && (s'.sent == s.sent || (s.outgoing.Some? && s.outgoing.value.ack == Some(true) && s'.sent == s.sent + [s.outgoing.value.revisionId]))
      && (s'.outgoing.Some? && s'.outgoing.value.ack == Some(true) ==>
            s.outgoing.Some? && s.outgoing.value.ack == Some(true) && s'.outgoing.value.revisionId == s.outgoing.value.revisionId)
  {
    hide SlicesOf, HeaderFor, ParentsOf;
    if s.outgoing.None? {
    } else if s.outgoing.value.nextChunk < |s.outgoing.value.slices| {
    } else {
    }
  }

  lemma IngestTransfers(sha: Digest, s: Side)
    requires IngestStep(sha, s).Some?
    ensures var s' := IngestStep(sha, s).value; var d := s.receiver.ready[0];
      && s'.sent == s.sent && s'.outgoing == s.outgoing && s'.remoteGraph == s.remoteGraph && s'.phase == s.phase
      && (s'.received == s.received || (s'.received == s.received + [d.header.revisionId]
            && IngestReceivedRevision(sha, s.disk.tables, InputOf(s, d)).outcome
               in {Stored(d.header.revisionId), AlreadyPresent(d.header.revisionId)}))
  {
    hide Replay, IngestReceivedRevision, InputOf;
    OutcomeNames(sha, s.disk.tables, InputOf(s, s.receiver.ready[0]));
    InputId(s);
  }

  /** An ingest speaks of the revision it was given. */
  lemma OutcomeNames(sha: Digest, t: Tables, i: ReceivedInput)
    ensures var o := IngestReceivedRevision(sha, t, i).outcome;
      (o.Stored? ==> o == Stored(i.revisionId)) && (o.AlreadyPresent? ==> o == AlreadyPresent(i.revisionId))
  {
    hide SaveStmts, Autocommit, FirstMissing;
  }

  /** The run itself sends and receives nothing; it validates the peer's graph before going on. */
  lemma RunTransfers(sha: Digest, s: Side, c: Choice)
    requires s.hello.Hello? && GraphChecked(s) && RunStep(sha, s, c).Some?
    ensures var s' := RunStep(sha, s, c).value;
      s'.sent == s.sent && s'.received == s.received && s'.outgoing == s.outgoing && GraphChecked(s')
  {
    RunStepFrame(sha, s, c);
    hide Consume, FirstAwaited, Acyclic;
    var i := FirstAwaited(s.phase, s.inbox);
    if i.Some? {
      var popped := s.(inbox := s.inbox[..i.value] + s.inbox[i.value + 1..]);
      if Consume(sha, popped, s.inbox[i.value], c).Some? {
        ConsumeChecks(sha, popped, s.inbox[i.value], c);
      }
    }
  }

  lemma ConsumeChecks(sha: Digest, s: Side, m: Message, c: Choice)
    requires GraphChecked(s) && Awaited(s.phase, m) && Consume(sha, s, m, c).Some?
    ensures GraphChecked(Consume(sha, s, m, c).value)
  {
    hide Acyclic, IsHistory, IsWantList, VaultGraph, HistoryGraph, Replay, AdoptVault, SummaryOf;
  }

  /** In every session: the peer's graph was validated, what counts as received is stored, what counts as sent was acknowledged. */
  lemma {:induction false} TransfersHonest(sha: Digest, chunkBytes: nat, hello: Message, vaultId: Option<VaultId>, d: Disk,
      ss: seq<Side>, es: seq<Event>, n: nat)
    requires chunkBytes > 0 && IsLife(sha, chunkBytes, hello, vaultId, d, ss, es) && n <= |es|
    requires SizeFaithful(sha) && Sound(sha, d)
    ensures GraphChecked(ss[n]) && ReceivedStored(ss[n]) && SentAcknowledged(ss[n], es, n)
  {
    hide AfterEvent, Guarded, StoreKept, Sound, SizeFaithful, GraphChecked, ReceivedStored, SentAcknowledged;
    if n == 0 {
      FreshTransfers(ss[0], es);
    } else {
      TransfersHonest(sha, chunkBytes, hello, vaultId, d, ss, es, n - 1);
      LifeGuarded(sha, chunkBytes, hello, vaultId, d, ss, es, n - 1);
      StoreKeptAlways(sha, chunkBytes, hello, vaultId, d, ss, es, n - 1);
      assert AfterEvent(sha, chunkBytes, ss[n - 1], es[n - 1]) == Some(ss[n - 1 + 1]);
      EventHonest(sha, chunkBytes, d, ss[n - 1], es, n - 1);
    }
  }

  lemma FreshTransfers(s: Side, es: seq<Event>)
    requires s.phase == Unstarted && s.received == [] && s.sent == [] && s.outgoing.None?
    ensures GraphChecked(s) && ReceivedStored(s) && SentAcknowledged(s, es, 0)
  {
  }

  lemma EventHonest(sha: Digest, chunkBytes: nat, d: Disk, s: Side, es: seq<Event>, n: nat)
    requires chunkBytes > 0 && n < |es| && AfterEvent(sha, chunkBytes, s, es[n]).Some?
    requires Guarded(s) && StoreKept(sha, d, s) && SizeFaithful(sha)
    requires GraphChecked(s) && ReceivedStored(s) && SentAcknowledged(s, es, n)
    ensures var s' := AfterEvent(sha, chunkBytes, s, es[n]).value;
      GraphChecked(s') && ReceivedStored(s') && SentAcknowledged(s', es, n + 1)
  {
    hide OnControl, OnBulk, RunStep, ServeStep, IngestStep, StoreKept, SizeFaithful, Acyclic, AckHeard, IngestReceivedRevision, InputOf;
    var s' := AfterEvent(sha, chunkBytes, s, es[n]).value;
    AcksStay(es, n);
    RowsStay(sha, chunkBytes, d, s, es[n]);
    match es[n]
    case ControlIn(m) =>
      OnControlTransfers(s, m);
      if m.RevisionAck? {
        AckIsHeard(es, n);
      }
    case BulkIn(f) => OnBulkTransfers(s, f);
    case RunGoes(c) => RunTransfers(sha, s, c);
    case Serves => ServeTransfers(chunkBytes, s);
    case Ingests =>
      IngestTransfers(sha, s);
      IngestStepGuarded(sha, s);
      IngestedIsStored(sha, s.disk, InputOf(s, s.receiver.ready[0]));
      InputId(s);
  }

  lemma InputId(s: Side)
    requires s.remote.Some? && s.receiver.ready != []
    ensures InputOf(s, s.receiver.ready[0]).revisionId == s.receiver.ready[0].header.revisionId
  {
  }

  lemma AcksStay(es: seq<Event>, n: nat)
    requires n < |es|
    ensures forall id :: AckHeard(es, n, id) ==> AckHeard(es, n + 1, id)
  {
  }

  lemma AckIsHeard(es: seq<Event>, n: nat)
    requires n < |es| && es[n].ControlIn? && es[n].message.RevisionAck?
    ensures es[n].message.accepted ==> AckHeard(es, n + 1, es[n].message.ackId)
  {
  }

  lemma {:induction false} IngestedIsStored(sha: Digest, d: Disk, i: ReceivedInput)
    ensures var e := IngestReceivedRevision(sha, d.tables, i);
      e.outcome in {Stored(i.revisionId), AlreadyPresent(i.revisionId)} ==> i.revisionId in Replay(sha, d, e.steps).tables.rows
  {
    hide Replay, SaveStmts, Autocommit;
    var e := IngestReceivedRevision(sha, d.tables, i);
    if e.outcome.Stored? {
      StoredSteps(sha, d.tables, i);
      StoredRow(sha, d, ReceivedRevision(i), i.bytes);
    } else if e.outcome.AlreadyPresent? {
      NothingReplayed(sha, d);
    }
  }

  lemma {:induction false} NothingReplayed(sha: Digest, d: Disk)
    ensures Replay(sha, d, []) == d
  {
  }

  lemma {:induction false} StoredRow(sha: Digest, d: Disk, r: Revision, bytes: Bytes)
    ensures r.id in Replay(sha, d, [PutBlob(bytes)] + Autocommit(SaveStmts(r))).tables.rows
  {
    hide Replay, Autocommit, SaveStmts;
    var ss := SaveStmts(r);
    ReplayConcat(sha, d, [PutBlob(bytes)], Autocommit(ss));
    OneStep(sha, d, PutBlob(bytes));
    assert Autocommit(ss)[..|ss|] == Autocommit(ss) && ss[..|ss|] == ss;
    ReplayAutocommit(sha, ApplyDurable(sha, d, PutBlob(bytes)), ss, |ss|);
    SavePrefix(d.tables, r, |ss|);
  }

  /** No event loses a stored row. */
  lemma RowsStay(sha: Digest, chunkBytes: nat, d: Disk, s: Side, e: Event)
    requires chunkBytes > 0 && Guarded(s) && StoreKept(sha, d, s) && SizeFaithful(sha) && AfterEvent(sha, chunkBytes, s, e).Some?
    ensures forall id :: id in s.disk.tables.rows ==> id in AfterEvent(sha, chunkBytes, s, e).value.disk.tables.rows
  {
    hide AfterEvent, Guarded, SizeFaithful, Sound, NoHeadMoved;
    SelfKept(sha, d, s);
    EventKeepsStore(sha, chunkBytes, s.disk, s, e);
  }

  lemma SelfKept(sha: Digest, d: Disk, s: Side)
    requires StoreKept(sha, d, s)
    ensures StoreKept(sha, s.disk, s)
  {
    hide Sound;
  }

  // ---- what is reported missing ------------------------------------------------------

  /** The side has answered for the revision, one way or the other. */
  ghost predicate Answered(out: seq<Message>, id: RevisionId) {
    exists i :: 0 <= i < |out| && out[i].RevisionAck? && out[i].ackId == id
  }

  /** The event takes back the transfer of the revision. */
  ghost predicate Cancels(s: Side, e: Event, id: RevisionId) {
    e.ControlIn? && e.message.TransferCancel? && e.message.cancelSeq in s.receiver.assemblers
    && s.receiver.assemblers[e.message.cancelSeq].header.revisionId == id
  }

  ghost predicate CancelledBefore(ss: seq<Side>, es: seq<Event>, n: nat, id: RevisionId)
    requires |ss| == |es| + 1 && n <= |es|
  {
    exists k :: 0 <= k < n && Cancels(ss[k], es[k], id)
  }

  /** Expected are wanted revisions, and no longer expected are only answered and cancelled ones. */
  ghost predicate Accounted(ss: seq<Side>, es: seq<Event>, n: nat)
    requires |ss| == |es| + 1 && n <= |es|
  {
    && ss[n].expected <= SeqToSet(ss[n].wanted)
    && forall id :: id in ss[n].wanted && id !in ss[n].expected ==> Answered(ss[n].out, id) || CancelledBefore(ss, es, n, id)
  }

  /** An event that only stops expecting what it answers or cancels. */
  ghost predicate Settles(s: Side, e: Event, s': Side) {
    && s'.wanted == s.wanted && s'.expected <= s.expected && s.out <= s'.out
    && forall id :: id in s.expected && id !in s'.expected ==> Answered(s'.out, id) || Cancels(s, e, id)
  }

  lemma {:induction false} RejectAllAnswers(s: Side, ids: seq<RevisionId>)
    ensures var s' := RejectAll(s, ids);
      && s'.wanted == s.wanted && s'.expected <= s.expected && s.out <= s'.out
      && forall id :: id in s.expected && id !in s'.expected ==> Answered(s'.out, id)
  {
    hide Notify;
    if |ids| > 0 {
      var before, id := RejectAll(s, ids[..|ids| - 1]), ids[|ids| - 1];
      RejectAllAnswers(s, ids[..|ids| - 1]);
      RejectAnswers(before, id);
      StillAnswered(before.out, Reject(before, id).out);
    }
  }

  lemma RejectAnswers(s: Side, id: RevisionId)
    ensures var s' := Reject(s, id);
      s'.wanted == s.wanted && s'.expected == s.expected - {id} && s.out <= s'.out && Answered(s'.out, id)
  {
    assert (s.out + [RevisionAck(id, false, None)])[|s.out|].RevisionAck?;
  }

  lemma StillAnswered(out: seq<Message>, out': seq<Message>)
    requires out <= out'
    ensures forall id :: Answered(out, id) ==> Answered(out', id)
  {
    forall id | Answered(out, id)
      ensures Answered(out', id)
    {
      var i :| 0 <= i < |out| && out[i].RevisionAck? && out[i].ackId == id;
      assert out'[i] == out[i];
    }
  }

  lemma ControlSettles(s: Side, m: Message)
    ensures Settles(s, ControlIn(m), OnControl(s, m))
  {
    hide OnHeader, RejectAll;
    if m.RevisionHeader? {
      var r := OnHeader(s.receiver, m.header);
      RejectAllAnswers(s.(receiver := r.(refused := [])), r.refused);
    }
  }

  lemma BulkSettles(s: Side, f: ChunkFrame)
    ensures Settles(s, BulkIn(f), OnBulk(s, f))
  {
    hide OnFrame, RejectAll;
    var r := OnFrame(s.receiver, f);
    RejectAllAnswers(s.(receiver := r.(refused := [])), r.refused);
  }

  lemma IngestSettles(sha: Digest, s: Side)
    requires IngestStep(sha, s).Some?
    ensures Settles(s, Ingests, IngestStep(sha, s).value)
  {
    hide Replay, IngestReceivedRevision, InputOf;
    var id := s.receiver.ready[0].header.revisionId;
    assert (s.out + [RevisionAck(id, true, None)])[|s.out|].RevisionAck?;
    assert (s.out + [RevisionAck(id, false, None)])[|s.out|].RevisionAck?;
  }

  lemma ServeSettles(chunkBytes: nat, s: Side)
    requires chunkBytes > 0 && ServeStep(chunkBytes, s).Some?
    ensures Settles(s, Serves, ServeStep(chunkBytes, s).value)
  {
    hide SlicesOf, HeaderFor, Answered;
  }

  /** The run either leaves the list alone or starts it, with everything on it expected. */
  lemma RunStartsList(sha: Digest, s: Side, c: Choice)
    requires RunStep(sha, s, c).Some?
    ensures var s' := RunStep(sha, s, c).value;
      (s'.wanted == s.wanted && s'.expected == s.expected) || s'.expected == SeqToSet(s'.wanted)
  {
    hide IsHistory, AcceptableHistory, IsWantList, VaultGraph, HistoryGraph, Replay, AdoptVault, SummaryOf, FirstAwaited;
  }

  lemma EventSettles(sha: Digest, chunkBytes: nat, s: Side, e: Event)
    requires chunkBytes > 0 && AfterEvent(sha, chunkBytes, s, e).Some? && !e.RunGoes?
    ensures Settles(s, e, AfterEvent(sha, chunkBytes, s, e).value)
  {
    hide OnControl, OnBulk, ServeStep, IngestStep, Settles;
    match e
    case ControlIn(m) => ControlSettles(s, m);
    case BulkIn(f) => BulkSettles(s, f);
    case Serves => ServeSettles(chunkBytes, s);
    case Ingests => IngestSettles(sha, s);
  }

  /**
   Whatever the peer sends: what a session would report as missing are wanted revisions, and a wanted
   revision it does not report was answered for or taken back by the peer.
   */
  lemma {:induction false} MissingIsAccountedFor(sha: Digest, chunkBytes: nat, hello: Message, vaultId: Option<VaultId>, d: Disk,
      ss: seq<Side>, es: seq<Event>, n: nat)
    requires chunkBytes > 0 && IsLife(sha, chunkBytes, hello, vaultId, d, ss, es) && n <= |es|
    ensures Accounted(ss, es, n)
  {
    hide AfterEvent, Guarded, Answered, Cancels;
    if n > 0 {
      var s, e := ss[n - 1], es[n - 1];
      MissingIsAccountedFor(sha, chunkBytes, hello, vaultId, d, ss, es, n - 1);
      LifeGuarded(sha, chunkBytes, hello, vaultId, d, ss, es, n - 1);
      assert AfterEvent(sha, chunkBytes, s, e) == Some(ss[n - 1 + 1]);
      EventGuarded(sha, chunkBytes, s, e);
      StillAnswered(s.out, ss[n].out);
      if e.RunGoes? {
        RunIsEvent(sha, chunkBytes, s, e);
        RunStartsList(sha, s, e.choice);
      } else {
        EventSettles(sha, chunkBytes, s, e);
      }
      assert forall id :: Cancels(s, e, id) ==> CancelledBefore(ss, es, n, id);
    }
  }

  lemma RunIsEvent(sha: Digest, chunkBytes: nat, s: Side, e: Event)
    requires chunkBytes > 0 && e.RunGoes?
    ensures AfterEvent(sha, chunkBytes, s, e) == RunStep(sha, s, e.choice)
  {
    hide RunStep;
  }
}
