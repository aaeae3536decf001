/**
 The engine's operations (packages/sync/src/engine.ts), each as the durable steps it takes and its
 outcome, and the class that takes those steps one at a time: blob first, metadata second.
 */
module Engine {
  import opened Basics
  import opened Reachability
  import opened Framing
  import opened Store

  /** `Threw` covers every exception: a contract assertion, a foreign key, an unreadable blob. */
  datatype Outcome =
    | Recorded(id: RevisionId)
    | Unchanged(id: RevisionId)
    | Stored(id: RevisionId)
    | AlreadyPresent(id: RevisionId)
    | HashMismatch
    | MissingParent(id: RevisionId)
    | Merged(id: RevisionId)
    | MergeFailed
    | NeedsCredentials
    | HeadMoved(id: RevisionId)
    | VaultKnown
    | VaultAdopted
    | Threw

  datatype Effect = Effect(steps: seq<Durable>, outcome: Outcome)

  datatype ReceivedInput = ReceivedInput(vaultId: VaultId, revisionId: RevisionId, declaredParentIds: seq<RevisionId>,
    declaredHash: Hash, bytes: Bytes, fromDeviceId: DeviceId, message: Option<string>)

  /** What the external interpreter made of a merge: the bytes are arbitrary. */
  datatype MergeResult = MergeSucceeded(bytes: Bytes) | MergeRefused | CredentialsNeeded

  // ---- revision constructors ----------------------------------------------

  function ImportedRevision(id: RevisionId, vaultId: VaultId, hash: Hash, size: nat, name: string, device: DeviceId): Revision {
    Revision(id, vaultId, hash, size, [], Imported, device, Some(name))
  }

  function LocalChangeRevision(id: RevisionId, vaultId: VaultId, hash: Hash, size: nat,
      head: Option<RevisionId>, device: DeviceId): Revision
  {
    Revision(id, vaultId, hash, size, if head.Some? then [head.value] else [], LocalChange, device, None)
  }

  /** The sender's id and parents, verbatim; the local head has no way in. */
  function ReceivedRevision(i: ReceivedInput): Revision {
    Revision(i.revisionId, i.vaultId, i.declaredHash, |i.bytes|, i.declaredParentIds, Received, i.fromDeviceId, i.message)
  }

  function MergedRevision(id: RevisionId, vaultId: VaultId, hash: Hash, size: nat, base: RevisionId,
      incoming: seq<RevisionId>, device: DeviceId, message: string): Revision
  {
    Revision(id, vaultId, hash, size, [base] + incoming, MergedOp, device, Some(message))
  }

  // ---- what each operation durably does ------------------------------------

  /** The vault with its head moved, and the event that records it. */
  function MovedHead(v: VaultId, vault: Vault, next: RevisionId, reason: MoveReason): (Vault, HeadEvent) {
    (vault.(head := Some(next)), HeadEvent(v, vault.head, next, reason))
  }

  /** The vault row with its head moved, and the event that says so: always written together. */
  function MoveHeadStmts(vaultId: VaultId, vault: Vault, next: RevisionId, reason: MoveReason): seq<Stmt> {
    var (moved, event) := MovedHead(vaultId, vault, next, reason);
    [UpsertVault(vaultId, moved), InsertHeadEvent(event)]
  }

  function ImportVault(sha: Digest, device: DeviceId, vaultId: VaultId, id: RevisionId, name: string, bytes: Bytes): Effect {
    var r := ImportedRevision(id, vaultId, sha(bytes), |bytes|, name, device);
    Effect([PutBlob(bytes),
            Commit([UpsertVault(vaultId, Vault(name, None))] + SaveStmts(r) + MoveHeadStmts(vaultId, Vault(name, None), id, Promote))],
           Recorded(id))
  }

  function RecordLocalChange(sha: Digest, device: DeviceId, t: Tables, vaultId: VaultId, id: RevisionId, bytes: Bytes): Effect {
    if vaultId !in t.vaults then Effect([], Threw)
    else
      var vault := t.vaults[vaultId];
      if vault.head.Some? && vault.head.value in t.rows && t.rows[vault.head.value].hash == sha(bytes) then
        Effect([], Unchanged(vault.head.value))
      else
        var r := LocalChangeRevision(id, vaultId, sha(bytes), |bytes|, vault.head, device);
        if !CanSave(t, r) then Effect([PutBlob(bytes)], Threw)
        else Effect([PutBlob(bytes), Commit(SaveStmts(r) + MoveHeadStmts(vaultId, vault, id, Promote))], Recorded(id))
  }

  function FirstMissing(t: Tables, ps: seq<RevisionId>): (m: Option<RevisionId>)
    ensures m.None? <==> forall p :: p in ps ==> p in t.rows
  {
    if ps == [] then None
    else if ps[0] !in t.rows then Some(ps[0])
    else FirstMissing(t, ps[1..])
  }

  function IngestReceivedRevision(sha: Digest, t: Tables, i: ReceivedInput): Effect {
    if i.revisionId in t.rows then Effect([], AlreadyPresent(i.revisionId))
    else if sha(i.bytes) != i.declaredHash then Effect([], HashMismatch)
    else
      var missing := FirstMissing(t, i.declaredParentIds);
      if missing.Some? then Effect([], MissingParent(missing.value))
      else if i.vaultId !in t.vaults then Effect([PutBlob(i.bytes)], Threw)
      else Effect([PutBlob(i.bytes)] + Autocommit(SaveStmts(ReceivedRevision(i))), Stored(i.revisionId))
  }

  predicate Readable(d: Disk, id: RevisionId) {
    id in d.tables.rows && d.tables.rows[id].hash in d.blobs
  }

  predicate AllReadable(d: Disk, ids: seq<RevisionId>) {
    forall x :: x in ids ==> Readable(d, x)
  }

  /** The inputs must be stored and readable, but nothing checks which vault they belong to. */
  function MergeRevisions(sha: Digest, device: DeviceId, d: Disk, vaultId: VaultId, base: RevisionId, incoming: seq<RevisionId>,
      result: MergeResult, id: RevisionId, message: string): Effect
  {
    if !Readable(d, base) || !AllReadable(d, incoming) then Effect([], Threw)
    else match result
      case CredentialsNeeded => Effect([], NeedsCredentials)
      case MergeRefused => Effect([], MergeFailed)
      case MergeSucceeded(bytes) =>
        var r := MergedRevision(id, vaultId, sha(bytes), |bytes|, base, incoming, device, message);
        if incoming == [] || !NoDuplicates(r.parentIds) || !CanSave(d.tables, r) then Effect([PutBlob(bytes)], Threw)
        else Effect([PutBlob(bytes)] + Autocommit(SaveStmts(r)), Merged(id))
  }

  /** Promotion and fast-forward differ in the recorded reason alone; neither looks at ancestry. */
  function MoveHead(t: Tables, vaultId: VaultId, id: RevisionId, reason: MoveReason): Effect {
    if vaultId !in t.vaults || id !in t.rows || t.rows[id].vaultId != vaultId then Effect([], Threw)
    else Effect([Commit(MoveHeadStmts(vaultId, t.vaults[vaultId], id, reason))], HeadMoved(id))
  }

  /** Keeps the peer's vault id. */
  function AdoptVault(t: Tables, vaultId: VaultId, name: string): Effect {
    if vaultId in t.vaults then Effect([], VaultKnown)
    else Effect([Commit([UpsertVault(vaultId, Vault(name, None))])], VaultAdopted)
  }

  // ---- the engine ----------------------------------------------------------

  const EMPTY_DISK := Disk(map[], EMPTY_TABLES)

  class SyncEngine {
    const metadata: MetadataStore
    const blobs: BlobStore
    const deviceId: DeviceId
    /** Every durable step since the stores were empty, in the order taken. */
    ghost var steps: seq<Durable>

    ghost function State(): Disk
      reads metadata, blobs
    {
      Disk(blobs.files, metadata.Contents())
    }

    /** Between operations no transaction is open, and the disk is exactly what the steps made it. */
    ghost predicate Valid()
      reads this, metadata, blobs
    {
      metadata.Idle() && State() == Replay(blobs.sha, EMPTY_DISK, steps)
    }

    constructor (deviceId: DeviceId, sha: Digest)
      ensures Valid() && steps == [] && this.deviceId == deviceId && blobs.sha == sha
      ensures fresh(metadata) && fresh(blobs)
    {
      this.deviceId := deviceId;
      metadata := new MetadataStore();
      blobs := new BlobStore(sha);
      steps := [];
    }

    /** The operation took exactly the steps of `e`, and the disk shows it. */
    twostate predicate Performed(e: Effect, outcome: Outcome)
      reads this, metadata, blobs
    {
      && outcome == e.outcome
      && steps == old(steps) + e.steps
      && State() == Replay(blobs.sha, old(State()), e.steps)
    }

    /** Records steps whose effect is already visible. */
    ghost method Took(more: seq<Durable>, before: Disk)
      requires metadata.Idle() && before == Replay(blobs.sha, EMPTY_DISK, steps)
      requires State() == Replay(blobs.sha, before, more)
      modifies `steps
      ensures Valid() && steps == old(steps) + more
    {
      ReplayConcat(blobs.sha, EMPTY_DISK, steps, more);
      steps := steps + more;
    }

    method PutBytes(bytes: Bytes) returns (hash: Hash)
      requires Valid()
      modifies blobs, `steps
      ensures Valid() && hash == blobs.sha(bytes)
      ensures steps == old(steps) + [PutBlob(bytes)]
      ensures State() == ApplyDurable(blobs.sha, old(State()), PutBlob(bytes))
    {
      ghost var before := State();
      hash := blobs.Put(bytes);
      OneStep(blobs.sha, before, PutBlob(bytes));
      Took([PutBlob(bytes)], before);
    }

    /** Writes the moved head and its event in the open transaction. */
    method WriteHead(vaultId: VaultId, vault: Vault, next: RevisionId, reason: MoveReason)
      requires metadata.InTransaction()
      modifies metadata`vaults, metadata`headEvents, metadata`commits, metadata`open
      ensures metadata.InTransaction() && metadata.commits == old(metadata.commits)
      ensures metadata.open == old(metadata.open) + MoveHeadStmts(vaultId, vault, next, reason)
    {
      ghost var ss := MoveHeadStmts(vaultId, vault, next, reason);
      ghost var open0 := metadata.open;
      metadata.SaveVault(vaultId, vault.(head := Some(next)));
      RunStmtsAppend(metadata.journal, open0, ss[0]);
      metadata.AppendHeadEvent(HeadEvent(vaultId, vault.head, next, reason));
      RunStmtsAppend(metadata.journal, open0 + [ss[0]], ss[1]);
      assert open0 + [ss[0]] + [ss[1]] == open0 + ss;
    }

    /** Saves a revision in the open transaction, if the store accepts it. */
    method WriteRevision(r: Revision) returns (ok: bool)
      requires metadata.InTransaction()
      modifies metadata`rows, metadata`parents, metadata`commits, metadata`open
      ensures metadata.InTransaction() && metadata.commits == old(metadata.commits)
      ensures ok <==> CanSave(old(metadata.Contents()), r)
      ensures metadata.open == if ok then old(metadata.open) + SaveStmts(r) else old(metadata.open)
    {
      ghost var before, open0 := metadata.Contents(), metadata.open;
      ok := metadata.SaveRevision(r);
      SavePrefix(before, r, 1 + |r.parentIds|);
      assert SaveStmts(r)[..1 + |r.parentIds|] == SaveStmts(r);
      RunStmtsConcat(metadata.journal, open0, SaveStmts(r));
    }

    /** Ends the open transaction durably. */
    method Finish(ghost before: Disk)
      requires metadata.InTransaction() && metadata.journal == before.tables && blobs.files == before.blobs
      requires before == Replay(blobs.sha, EMPTY_DISK, steps)
      modifies metadata`depth, metadata`commits, metadata`open, `steps
      ensures Valid() && steps == old(steps) + [Commit(old(metadata.open))]
      ensures State() == ApplyDurable(blobs.sha, before, Commit(old(metadata.open)))
    {
      ghost var step := Commit(metadata.open);
      metadata.CommitTransaction();
      OneStep(blobs.sha, before, step);
      Took([step], before);
    }

    method Import(vaultId: VaultId, id: RevisionId, name: string, bytes: Bytes) returns (outcome: Outcome)
      requires Valid()
      modifies metadata, blobs, `steps
      ensures Valid() && Performed(ImportVault(blobs.sha, deviceId, vaultId, id, name, bytes), outcome)
    {
      hide Replay, ApplyDurable, SaveStmts, CanSave, ApplyStmt, MoveHeadStmts, RunStmts;
      ghost var sha, d0 := blobs.sha, State();
      var hash := PutBytes(bytes);
      ghost var d1 := State();
      FirstSave(metadata.Contents(), Vault(name, None), ImportedRevision(id, vaultId, hash, |bytes|, name, deviceId));
      var r := ImportedRevision(id, vaultId, hash, |bytes|, name, deviceId);
      metadata.Begin();
      metadata.SaveVault(vaultId, Vault(name, None));
      ghost var first := [UpsertVault(vaultId, Vault(name, None))];
      assert metadata.open == first;
      EmptyRun(metadata.journal);
      RunStmtsAppend(metadata.journal, [], UpsertVault(vaultId, Vault(name, None)));
      assert metadata.InTransaction();
      var ok := WriteRevision(r);
      assert ok && metadata.open == first + SaveStmts(r);
      WriteHead(vaultId, Vault(name, None), id, Promote);
      ghost var ss := first + SaveStmts(r) + MoveHeadStmts(vaultId, Vault(name, None), id, Promote);
      assert metadata.open == ss;
      Finish(d1);
      TwoSteps(sha, d0, PutBlob(bytes), Commit(ss));
      outcome := Recorded(id);
    }

    static lemma {:induction false} EmptyRun(t: Tables)
      ensures RunStmts(t, []) == t
    {
    }

    /** An import has no parents, so the store accepts it once its vault is there. */
    static lemma FirstSave(t: Tables, vault: Vault, r: Revision)
      requires r.parentIds == []
      ensures CanSave(ApplyStmt(t, UpsertVault(r.vaultId, vault)), r)
    {
    }

    /** A blob, then one transaction: the revision, the head on it, the event. A refused save rolls back. */
    method StoreAndPromote(vaultId: VaultId, vault: Vault, r: Revision, bytes: Bytes) returns (ok: bool)
      requires Valid()
      modifies metadata, blobs, `steps
      ensures Valid() && ok == CanSave(old(metadata.Contents()), r)
      ensures var taken := if ok then [PutBlob(bytes), Commit(SaveStmts(r) + MoveHeadStmts(vaultId, vault, r.id, Promote))]
                           else [PutBlob(bytes)];
        steps == old(steps) + taken && State() == Replay(blobs.sha, old(State()), taken)
    {
      hide Replay, SaveStmts, CanSave, MoveHeadStmts, RunStmts;
      ghost var sha, d0 := blobs.sha, State();
      var _ := PutBytes(bytes);
      ghost var d1 := State();
      OneStep(sha, d0, PutBlob(bytes));
      metadata.Begin();
      ok := WriteRevision(r);
      if !ok {
        metadata.Rollback();
        return;
      }
      WriteHead(vaultId, vault, r.id, Promote);
      ghost var ss := metadata.open;
      assert ss == SaveStmts(r) + MoveHeadStmts(vaultId, vault, r.id, Promote);
      Finish(d1);
      TwoSteps(sha, d0, PutBlob(bytes), Commit(ss));
    }

    method Record(vaultId: VaultId, id: RevisionId, bytes: Bytes) returns (outcome: Outcome)
      requires Valid()
      modifies metadata, blobs, `steps
      ensures Valid()
      ensures Performed(RecordLocalChange(blobs.sha, deviceId, old(metadata.Contents()), vaultId, id, bytes), outcome)
    {
      if vaultId !in metadata.vaults {
        return Threw;
      }
      var vault := metadata.vaults[vaultId];
      var hash := blobs.sha(bytes);
      if vault.head.Some? && vault.head.value in metadata.rows && metadata.rows[vault.head.value].hash == hash {
        return Unchanged(vault.head.value);
      }
      var r := LocalChangeRevision(id, vaultId, hash, |bytes|, vault.head, deviceId);
      var ok := StoreAndPromote(vaultId, vault, r, bytes);
      outcome := if ok then Recorded(id) else Threw;
    }

    /** Outside any transaction: a blob, then the statements of one save, each its own commit. */
    method StoreOutside(r: Revision, bytes: Bytes) returns (ok: bool)
      requires Valid()
      modifies metadata, blobs, `steps
      ensures Valid() && ok == CanSave(old(metadata.Contents()), r)
      ensures var taken := [PutBlob(bytes)] + if ok then Autocommit(SaveStmts(r)) else [];
        steps == old(steps) + taken && State() == Replay(blobs.sha, old(State()), taken)
    {
      hide Replay, SaveStmts, CanSave, Autocommit, AfterSave, RunStmts;
      ghost var sha, d0 := blobs.sha, State();
      var _ := PutBytes(bytes);
      ghost var d1, ss := State(), SaveStmts(r);
      OneStep(sha, d0, PutBlob(bytes));
      ok := metadata.SaveRevision(r);
      if ok {
        SavePrefix(d1.tables, r, |ss|);
        ReplayAutocommit(sha, d1, ss, |ss|);
        assert ss[..|ss|] == ss && Autocommit(ss)[..|ss|] == Autocommit(ss);
        Took(Autocommit(ss), d1);
        ReplayConcat(sha, d0, [PutBlob(bytes)], Autocommit(ss));
      } else {
        assert [PutBlob(bytes)] + [] == [PutBlob(bytes)];
      }
    }

    method Ingest(i: ReceivedInput) returns (outcome: Outcome)
      requires Valid()
      modifies metadata, blobs, `steps
      ensures Valid() && Performed(IngestReceivedRevision(blobs.sha, old(metadata.Contents()), i), outcome)
    {
      if i.revisionId in metadata.rows {
        return AlreadyPresent(i.revisionId);
      }
      var actualHash := blobs.sha(i.bytes);
      if actualHash != i.declaredHash {
        return HashMismatch;
      }
      for k := 0 to |i.declaredParentIds|
        invariant FirstMissing(metadata.Contents(), i.declaredParentIds)
               == FirstMissing(metadata.Contents(), i.declaredParentIds[k..])
        invariant i.declaredParentIds[0..] == i.declaredParentIds
      {
        if i.declaredParentIds[k] !in metadata.rows {
          return MissingParent(i.declaredParentIds[k]);
        }
      }
      var r := ReceivedRevision(i);
      var ok := StoreOutside(r, i.bytes);
      outcome := if ok then Stored(i.revisionId) else Threw;
      assert [PutBlob(i.bytes)] + [] == [PutBlob(i.bytes)];
    }

    method MergeInto(vaultId: VaultId, base: RevisionId, incoming: seq<RevisionId>, result: MergeResult, id: RevisionId,
        message: string) returns (outcome: Outcome)
      requires Valid()
      modifies metadata, blobs, `steps
      ensures Valid()
      ensures Performed(MergeRevisions(blobs.sha, deviceId, old(State()), vaultId, base, incoming, result, id, message), outcome)
    {
      var allReadable := base in metadata.rows && metadata.rows[base].hash in blobs.files;
      for k := 0 to |incoming|
        modifies {}
        invariant allReadable <==> Readable(State(), base) && AllReadable(State(), incoming[..k])
      {
        var x := incoming[k];
        AllReadableStep(State(), incoming, k);
        allReadable := allReadable && x in metadata.rows && metadata.rows[x].hash in blobs.files;
      }
      assert incoming[..|incoming|] == incoming;
      if !allReadable {
        return Threw;
      }
      if result.CredentialsNeeded? {
        return NeedsCredentials;
      }
      if result.MergeRefused? {
        return MergeFailed;
      }
      var bytes := result.bytes;
      var r := MergedRevision(id, vaultId, blobs.sha(bytes), |bytes|, base, incoming, deviceId, message);
      if incoming == [] || !NoDuplicates(r.parentIds) {
        ghost var d0 := State();
        var _ := PutBytes(bytes);
        OneStep(blobs.sha, d0, PutBlob(bytes));
        return Threw;
      }
      var ok := StoreOutside(r, bytes);
      outcome := if ok then Merged(id) else Threw;
      assert [PutBlob(bytes)] + [] == [PutBlob(bytes)];
    }

    method Advance(vaultId: VaultId, id: RevisionId, reason: MoveReason) returns (outcome: Outcome)
      requires Valid()
      modifies metadata, `steps
      ensures Valid() && Performed(MoveHead(old(metadata.Contents()), vaultId, id, reason), outcome)
    {
      if vaultId !in metadata.vaults || id !in metadata.rows || metadata.rows[id].vaultId != vaultId {
        return Threw;
      }
      ghost var d0 := State();
      var vault := metadata.vaults[vaultId];
      metadata.Begin();
      WriteHead(vaultId, vault, id, reason);
      ghost var ss := metadata.open;
      assert ss == MoveHeadStmts(vaultId, vault, id, reason);
      Finish(d0);
      OneStep(blobs.sha, d0, Commit(ss));
      outcome := HeadMoved(id);
    }

    method Adopt(vaultId: VaultId, name: string) returns (outcome: Outcome)
      requires Valid()
      modifies metadata, `steps
      ensures Valid() && Performed(AdoptVault(old(metadata.Contents()), vaultId, name), outcome)
    {
      if vaultId in metadata.vaults {
        return VaultKnown;
      }
      ghost var d0, s := State(), UpsertVault(vaultId, Vault(name, None));
      metadata.SaveVault(vaultId, Vault(name, None));
      RunStmtsAppend(d0.tables, [], s);
      OneStep(blobs.sha, d0, Commit([s]));
      Took([Commit([s])], d0);
      outcome := VaultAdopted;
    }
  }

  lemma AllReadableStep(d: Disk, ids: seq<RevisionId>, k: nat)
    requires k < |ids|
    ensures AllReadable(d, ids[..k + 1]) <==> AllReadable(d, ids[..k]) && Readable(d, ids[k])
  {
    assert ids[..k + 1] == ids[..k] + [ids[k]];
  }

  lemma {:induction false} OneStep(sha: Digest, d: Disk, s: Durable)
    ensures Replay(sha, d, [s]) == ApplyDurable(sha, d, s)
  {
    ReplayAppend(sha, d, [], s);
  }

  lemma {:induction false} TwoSteps(sha: Digest, d: Disk, s: Durable, u: Durable)
    ensures Replay(sha, d, [s, u]) == ApplyDurable(sha, ApplyDurable(sha, d, s), u)
  {
    OneStep(sha, d, s);
    ReplayAppend(sha, d, [s], u);
  }
}
