/**
 The smallest whole story: one device imports a vault, another one has nothing yet, and they meet once.
 It shows that the theorems about sessions have something to speak of, on both sides: the meeting can
 always succeed, and it is sure to succeed only for a file of at most sixty-four chunks.
 */
module FirstJoin {
  import opened Basics
  import opened Reachability
  import opened RemoteHistory
  import opened Divergence
  import opened Framing
  import opened Chunks
  import opened Store
  import opened Engine
  import opened EngineRuns
  import opened Messages
  import opened Inbound
  import opened Session
  import opened JointSession
  import opened JointIngest
  import opened JointRuns
  import opened JointDrops
  import opened SessionOutcome
  import opened HeadConvergence

  /** What an import leaves on an empty device. */
  lemma ImportedTables(sha: Digest, device: DeviceId, v: VaultId, id: RevisionId, name: string, bytes: Bytes)
    ensures var t := Replay(sha, EMPTY_DISK, ImportVault(sha, device, v, id, name, bytes).steps).tables;
      && t.rows.Keys == {id} && t.rows[id].vaultId == v && t.rows[id].hash == sha(bytes) && t.rows[id].sizeBytes == |bytes|
      && t.parents == map[]
      && t.vaults.Keys == {v} && t.vaults[v].head == Some(id)
  {
    hide RunStmts, SaveStmts, AfterSave, MoveHeadStmts;
    var r := ImportedRevision(id, v, sha(bytes), |bytes|, name, device);
    var first, move := [UpsertVault(v, Vault(name, None))], MoveHeadStmts(v, Vault(name, None), id, Promote);
    var steps := ImportVault(sha, device, v, id, name, bytes).steps;
    TwoSteps(sha, EMPTY_DISK, steps[0], steps[1]);
    RunStmtsConcat(EMPTY_TABLES, first + SaveStmts(r), move);
    RunStmtsConcat(EMPTY_TABLES, first, SaveStmts(r));
    SyncEngine.EmptyRun(EMPTY_TABLES);
    RunStmtsAppend(EMPTY_TABLES, [], first[0]);
    assert [] + first == first;
    var t := RunStmts(EMPTY_TABLES, first);
    SaveAllTables(t, r);
    MoveTables(RunStmts(t, SaveStmts(r)), v, Vault(name, None), id, Promote);
    RootSaved(t, r);
  }

  lemma RootSaved(t: Tables, r: Revision)
    requires r.parentIds == [] && r.id !in t.rows
    ensures AfterSave(t, r, 1) == t.(rows := t.rows[r.id := RowOf(r)])
  {
  }

  lemma ImportIsSound(sha: Digest, device: DeviceId, v: VaultId, id: RevisionId, name: string, bytes: Bytes)
    requires SizeFaithful(sha)
    ensures Sound(sha, Replay(sha, EMPTY_DISK, ImportVault(sha, device, v, id, name, bytes).steps))
  {
    hide Sound, SizeFaithful;
    EmptyIsSound(sha);
    ImportThroughout(sha, device, EMPTY_DISK, v, id, name, bytes);
    var steps := ImportVault(sha, device, v, id, name, bytes).steps;
    assert steps[..|steps|] == steps;
  }

  function FirstSetting(sha: Digest, chunkBytes: nat, device: DeviceId, v: VaultId, id: RevisionId, name: string, bytes: Bytes): Setting {
    Setting(sha, chunkBytes, v, Replay(sha, EMPTY_DISK, ImportVault(sha, device, v, id, name, bytes).steps), EMPTY_DISK)
  }

  lemma FirstIsGood(sha: Digest, chunkBytes: nat, device: DeviceId, v: VaultId, id: RevisionId, name: string, bytes: Bytes)
    requires SizeFaithful(sha) && chunkBytes > 0 && v != EMPTY_VAULT_ID
    ensures GoodSetting(FirstSetting(sha, chunkBytes, device, v, id, name, bytes))
  {
    hide Sound, SizeFaithful, Replay, ImportVault;
    ImportedTables(sha, device, v, id, name, bytes);
    ImportIsSound(sha, device, v, id, name, bytes);
    EmptyIsSound(sha);
  }

  lemma FirstWorld(st: Setting, hello: Message) returns (w: World)
    requires HelloOk(hello)
    ensures Initial(st, w)
  {
    w := World(FreshSide(hello, StartVault(st.a, st.v), st.a), FreshSide(hello, StartVault(st.b, st.v), st.b), 0, 0, 0, 0);
  }

  lemma StartIsRun(st: Setting, w: World)
    requires st.chunkBytes > 0 && Initial(st, w)
    ensures IsRun(st, [w], []) && !DroppedBy([w], [], 0)
  {
    hide Initial;
  }

  /** A want list over a single root. */
  lemma RootIsWanted(g: Graph, id: RevisionId, wanted: seq<RevisionId>)
    requires g.Keys == {id} && g[id] == [] && IsWantList(g, id, {}, wanted)
    ensures wanted == [id]
  {
    hide Reaches;
    ReachesSelf(g, id);
    assert id in wanted && forall x :: x in wanted ==> x == id;
    assert forall i :: 0 <= i < |wanted| ==> wanted[i] in wanted;
    assert |wanted| <= 1 || wanted[0] != wanted[1];
  }

  /** Both devices' verdicts when only one has a head. */
  lemma FirstVerdicts(st: Setting, w: World)
    requires Inv(st, w) && BothFinished(w) && HeadOf(st.a.tables, st.v).Some? && HeadOf(st.b.tables, st.v).None?
    ensures Concluded(st, w, LocalAhead, RemoteAhead)
  {
    hide Inv, HeadOf;
    RemoteHeads(st, w);
    InvSwaps(st, w);
    RemoteHeads(SwappedSetting(st), Swapped(w));
  }

  lemma FirstDelivery(st: Setting, w: World, id: RevisionId)
    requires Inv(st, w) && BothFinished(w) && st.b == EMPTY_DISK && HeadOf(st.a.tables, st.v) == Some(id)
    requires VaultGraph(st.a.tables, st.v).Keys == {id} && VaultGraph(st.a.tables, st.v)[id] == []
    ensures w.b.received == [id] && w.a.received == []
  {
    hide Inv, HoldsHistoryOf, IsWantList;
    HalfDelivered(st, w);
    InvSwaps(st, w);
    HalfDelivered(SwappedSetting(st), Swapped(w));
    assert VaultGraph(EMPTY_DISK.tables, st.v).Keys == {};
    RootIsWanted(VaultGraph(st.a.tables, st.v), id, w.b.wanted);
  }

  /**
   A device that imported a vault meets one that has nothing: their session starts properly and can run
   to its end on both; the new device then received exactly the imported revision, and once both have
   used their verdicts both heads are that revision.
   */
  lemma NewDeviceJoins(sha: Digest, chunkBytes: nat, device: DeviceId, v: VaultId, id: RevisionId, name: string, bytes: Bytes,
      hello: Message) returns (ws: seq<World>, acts: seq<Act>)
    requires SizeFaithful(sha) && chunkBytes > 0 && v != EMPTY_VAULT_ID && HelloOk(hello)
    ensures var st := FirstSetting(sha, chunkBytes, device, v, id, name, bytes);
      && GoodSetting(st) && IsRun(st, ws, acts) && BothFinished(ws[|acts|]) && !DroppedBy(ws, acts, |acts|)
      && ws[|acts|].b.received == [id] && ws[|acts|].a.received == []
      && Concluded(st, ws[|acts|], LocalAhead, RemoteAhead)
      && var (a', b') := Settled(st, ws[|acts|], LocalAhead, RemoteAhead);
         HeadOf(a'.tables, v) == HeadOf(b'.tables, v) == Some(id)
  {
    hide Initial, Step, Inv, GoodSetting, Concluded, SizeFaithful, Replay, ImportVault, DroppedBy, UsedByA, Reaches;
    var st := FirstSetting(sha, chunkBytes, device, v, id, name, bytes);
    FirstIsGood(sha, chunkBytes, device, v, id, name, bytes);
    ImportedTables(sha, device, v, id, name, bytes);
    var w := FirstWorld(st, hello);
    StartIsRun(st, w);
    ws, acts := DropFreeRunCanFinish(st, [w], []);
    RunInv(st, ws, acts, |acts|);
    FirstVerdicts(st, ws[|acts|]);
    FirstDelivery(st, ws[|acts|], id);
    SettledFacts(st, ws[|acts|], LocalAhead, RemoteAhead);
  }

  // ---- when the first session can stall --------------------------------------------

  lemma FirstIsSmallIff(sha: Digest, chunkBytes: nat, device: DeviceId, v: VaultId, id: RevisionId, name: string, bytes: Bytes)
    requires chunkBytes > 0
    ensures SmallSession(FirstSetting(sha, chunkBytes, device, v, id, name, bytes))
       <==> ChunkCountFor(|bytes|, chunkBytes) <= 64
  {
    hide Replay, ImportVault, Reaches, ChunkCountFor;
    ImportedTables(sha, device, v, id, name, bytes);
    var st := FirstSetting(sha, chunkBytes, device, v, id, name, bytes);
    ReachesSelf(VaultGraph(st.a.tables, v), id);
    assert Sends(st.a.tables, st.b.tables, v, id);
    assert st.a.tables.rows[id].sizeBytes == |bytes|;
    assert HeadOf(st.b.tables, v).None?;
  }

  /** The first session is sure to finish on both devices if and only if the file has at most sixty-four chunks. */
  lemma FirstJoinFinishesIff(sha: Digest, chunkBytes: nat, device: DeviceId, v: VaultId, id: RevisionId, name: string, bytes: Bytes,
      w: World)
    requires SizeFaithful(sha) && chunkBytes > 0 && v != EMPTY_VAULT_ID
    requires Initial(FirstSetting(sha, chunkBytes, device, v, id, name, bytes), w)
    ensures AlwaysFinishes(FirstSetting(sha, chunkBytes, device, v, id, name, bytes), w)
       <==> ChunkCountFor(|bytes|, chunkBytes) <= 64
  {
    hide SizeFaithful, GoodSetting, AlwaysFinishes, SmallSession, ChunkCountFor, Initial;
    FirstIsGood(sha, chunkBytes, device, v, id, name, bytes);
    FirstIsSmallIff(sha, chunkBytes, device, v, id, name, bytes);
    SessionFinishesIff(FirstSetting(sha, chunkBytes, device, v, id, name, bytes), w);
  }

  /** A digest whose collisions are equally long. */
  function LengthDigest(bytes: Bytes): Hash {
    Hash(seq(|bytes|, _ => '1'))
  }

  lemma LengthDigestFaithful()
    ensures SizeFaithful(LengthDigest)
  {
    forall x: Bytes, y: Bytes | LengthDigest(x) == LengthDigest(y)
      ensures |x| == |y|
    {
      assert |LengthDigest(x).hex| == |x| && |LengthDigest(y).hex| == |y|;
    }
  }

  /** At the default chunk size, a file one byte over four mebibytes has sixty-five chunks, and its first session can stall. */
  lemma FourMebibytesCanStall(device: DeviceId, v: VaultId, id: RevisionId, name: string, hello: Message)
    returns (bytes: Bytes, ws: seq<World>, acts: seq<Act>)
    requires v != EMPTY_VAULT_ID && HelloOk(hello)
    ensures |bytes| == 4 * 1024 * 1024 + 1
    ensures var st := FirstSetting(LengthDigest, DEFAULT_CHUNK_BYTES, device, v, id, name, bytes);
      && GoodSetting(st) && IsRun(st, ws, acts) && DroppedBy(ws, acts, |acts|)
      && Stuck(st, ws[|acts|]) && !BothFinished(ws[|acts|])
  {
    hide SizeFaithful, GoodSetting, SmallSession, Initial, IsRun, Stuck, DroppedBy, ChunkCountFor, LengthDigest, BothFinished;
    bytes := seq(4 * 1024 * 1024 + 1, _ => 0);
    SixtyFiveChunks(|bytes|);
    LengthDigestFaithful();
    var st := FirstSetting(LengthDigest, DEFAULT_CHUNK_BYTES, device, v, id, name, bytes);
    FirstIsGood(LengthDigest, DEFAULT_CHUNK_BYTES, device, v, id, name, bytes);
    FirstIsSmallIff(LengthDigest, DEFAULT_CHUNK_BYTES, device, v, id, name, bytes);
    var w := FirstWorld(st, hello);
    ws, acts := LargeSessionCanStall(st, w);
  }

  lemma SixtyFiveChunks(size: nat)
    requires size == 4 * 1024 * 1024 + 1
    ensures ChunkCountFor(size, DEFAULT_CHUNK_BYTES) == 65
  {
  }
}
