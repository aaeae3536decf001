/**
 What every run of engine operations keeps, at every durable step of the way: a crash leaves a
 prefix of the steps, and so a sound store.
 */
module EngineRuns {
  import opened Basics
  import opened Reachability
  import opened Framing
  import opened Store
  import opened Engine

  // ---- the invariant -------------------------------------------------------

  ghost predicate BlobsGenuine(sha: Digest, d: Disk) {
    forall h :: h in d.blobs ==> sha(d.blobs[h]) == h
  }

  ghost predicate BlobBacked(d: Disk) {
    forall id :: id in d.tables.rows ==>
      d.tables.rows[id].hash in d.blobs && |d.blobs[d.tables.rows[id].hash]| == d.tables.rows[id].sizeBytes
  }

  ghost predicate HeadsStored(t: Tables) {
    forall v :: v in t.vaults && t.vaults[v].head.Some? ==>
      t.vaults[v].head.value in t.rows && t.rows[t.vaults[v].head.value].vaultId == v
  }

  /** Foreign keys, and edge rows only for stored revisions. */
  ghost predicate KeysResolve(t: Tables) {
    && (forall id :: id in t.rows ==> t.rows[id].vaultId in t.vaults)
    && (forall id :: id in t.parents ==> id in t.rows && NoDuplicates(t.parents[id]))
    && (forall i :: 0 <= i < |t.headEvents| ==> t.headEvents[i].vaultId in t.vaults)
  }

  /** Read backwards, each event of the vault starts where the one before it ended; the last one ends at `head`. */
  ghost predicate LogLinked(log: seq<HeadEvent>, v: VaultId, head: Option<RevisionId>) {
    if |log| == 0 then head == None
    else
      var e := log[|log| - 1];
      if e.vaultId == v then head == Some(e.next) && LogLinked(log[..|log| - 1], v, e.previous)
      else LogLinked(log[..|log| - 1], v, head)
  }

  ghost predicate LogsLinked(t: Tables) {
    forall v :: v in t.vaults ==> LogLinked(t.headEvents, v, t.vaults[v].head)
  }

  ghost predicate Sound(sha: Digest, d: Disk) {
    && Closed(GraphOf(d.tables))
    && Acyclic(GraphOf(d.tables))
    && BlobsGenuine(sha, d)
    && BlobBacked(d)
    && HeadsStored(d.tables)
    && KeysResolve(d.tables)
    && LogsLinked(d.tables)
  }

  /** Colliding contents are at least equally long: all that the stored sizes depend on. */
  ghost predicate SizeFaithful(sha: Digest) {
    forall x: Bytes, y: Bytes :: sha(x) == sha(y) ==> |x| == |y|
  }

  lemma EmptyIsSound(sha: Digest)
    ensures Sound(sha, EMPTY_DISK)
  {
  }

  // ---- single steps --------------------------------------------------------

  lemma PutBlobKeeps(sha: Digest, d: Disk, bytes: Bytes)
    requires Sound(sha, d)
    ensures Sound(sha, ApplyDurable(sha, d, PutBlob(bytes)))
    ensures sha(bytes) in ApplyDurable(sha, d, PutBlob(bytes)).blobs
    ensures SizeFaithful(sha) ==> |ApplyDurable(sha, d, PutBlob(bytes)).blobs[sha(bytes)]| == |bytes|
  {
  }

  /** The blob the revision needs is there, with the declared size. */
  ghost predicate BlobReady(d: Disk, r: Revision) {
    r.hash in d.blobs && |d.blobs[r.hash]| == r.sizeBytes
  }

  lemma AfterSaveGraph(t: Tables, r: Revision, k: nat)
    requires k <= 1 + |r.parentIds| && r.id !in t.rows && KeysResolve(t)
    ensures GraphOf(AfterSave(t, r, k)) == if k == 0 then GraphOf(t) else GraphOf(t)[r.id := Merge([], r.parentIds[..k - 1])]
  {
    hide KeysResolve, Merge;
    NoEdgesYet(t, r.id);
    if k > 0 {
      MergeStep0(r.parentIds);
      var u, ps := AfterSave(t, r, k), Merge([], r.parentIds[..k - 1]);
      assert u.rows == t.rows[r.id := RowOf(r)];
      assert u.parents == (if k == 1 then t.parents else t.parents[r.id := ps]);
      NewRowGraph(t, u, r.id, ps);
    }
  }

  lemma NoEdgesYet(t: Tables, id: RevisionId)
    requires KeysResolve(t) && id !in t.rows
    ensures id !in t.parents && ParentsOf(t, id) == []
  {
  }

  lemma NewRowGraph(t: Tables, u: Tables, id: RevisionId, ps: seq<RevisionId>)
    requires id !in t.rows && u.rows.Keys == t.rows.Keys + {id}
    requires ParentsOf(u, id) == ps && forall c :: c != id ==> ParentsOf(u, c) == ParentsOf(t, c)
    ensures GraphOf(u) == GraphOf(t)[id := ps]
  {
  }

  lemma MergeStep0(ps: seq<RevisionId>)
    ensures Merge([], ps[..0]) == []
  {
    assert ps[..0] == [];
  }

  /** A save of a fresh revision is sound after each of its statements. */
  lemma SaveKeeps(sha: Digest, d: Disk, r: Revision, k: nat)
    requires Sound(sha, d) && r.id !in d.tables.rows && CanSave(d.tables, r) && BlobReady(d, r)
    requires k <= 1 + |r.parentIds|
    ensures Sound(sha, d.(tables := AfterSave(d.tables, r, k)))
  {
    var t := d.tables;
    var u := AfterSave(t, r, k);
    if k > 0 {
      AfterSaveGraph(t, r, k);
      var ps := Merge([], r.parentIds[..k - 1]);
      forall p | p in ps
        ensures p in GraphOf(t)
      {
        assert p in r.parentIds;
      }
      FreshLeaf(GraphOf(t), r.id, ps);
      assert KeysResolve(u) by {
        assert ParentsOf(t, r.id) == [];
        assert forall id :: id in u.parents ==> id in u.rows && NoDuplicates(u.parents[id]);
      }
    }
  }

  /** The head moves together with the event that records it. */
  lemma MoveKeeps(sha: Digest, d: Disk, vaultId: VaultId, id: RevisionId, reason: MoveReason)
    requires Sound(sha, d) && vaultId in d.tables.vaults
    requires id in d.tables.rows && d.tables.rows[id].vaultId == vaultId
    ensures var ss := MoveHeadStmts(vaultId, d.tables.vaults[vaultId], id, reason);
      Sound(sha, d.(tables := RunStmts(d.tables, ss)))
  {
    var t, vault := d.tables, d.tables.vaults[vaultId];
    var ss := MoveHeadStmts(vaultId, vault, id, reason);
    MoveTables(t, vaultId, vault, id, reason);
    var u := RunStmts(t, ss);
    assert GraphOf(u) == GraphOf(t);
    forall v | v in u.vaults
      ensures LogLinked(u.headEvents, v, u.vaults[v].head)
    {
      assert u.headEvents[..|u.headEvents| - 1] == t.headEvents;
    }
  }

  lemma {:induction false} MoveTables(t: Tables, vaultId: VaultId, vault: Vault, id: RevisionId, reason: MoveReason)
    ensures RunStmts(t, MoveHeadStmts(vaultId, vault, id, reason))
         == t.(vaults := t.vaults[vaultId := vault.(head := Some(id))],
               headEvents := t.headEvents + [HeadEvent(vaultId, vault.head, id, reason)])
  {
    var ss := MoveHeadStmts(vaultId, vault, id, reason);
    RunStmtsAppend(t, [], ss[0]);
    RunStmtsAppend(t, [ss[0]], ss[1]);
    assert [ss[0]] + [ss[1]] == ss;
  }

  /** A vault nobody knew yet has no revisions and no events. */
  lemma NewVaultKeeps(sha: Digest, d: Disk, vaultId: VaultId, name: string)
    requires Sound(sha, d) && vaultId !in d.tables.vaults
    ensures Sound(sha, d.(tables := RunStmts(d.tables, [UpsertVault(vaultId, Vault(name, None))])))
  {
    var t := d.tables;
    RunStmtsAppend(t, [], UpsertVault(vaultId, Vault(name, None)));
    var u := RunStmts(t, [UpsertVault(vaultId, Vault(name, None))]);
    assert GraphOf(u) == GraphOf(t);
    NoEventsNoHead(t.headEvents, vaultId);
  }

  lemma {:induction false} NoEventsNoHead(log: seq<HeadEvent>, v: VaultId)
    requires forall i :: 0 <= i < |log| ==> log[i].vaultId != v
    ensures LogLinked(log, v, None)
  {
    if |log| > 0 {
      NoEventsNoHead(log[..|log| - 1], v);
    }
  }

  // ---- operations ----------------------------------------------------------

  datatype EngineOp =
    | DoImport(vaultId: VaultId, id: RevisionId, name: string, bytes: Bytes)
    | DoRecord(vaultId: VaultId, id: RevisionId, bytes: Bytes)
    | DoIngest(input: ReceivedInput)
    | DoMerge(vaultId: VaultId, base: RevisionId, incoming: seq<RevisionId>, result: MergeResult, id: RevisionId, message: string)
    | DoMove(vaultId: VaultId, id: RevisionId, reason: MoveReason)
    | DoAdopt(vaultId: VaultId, name: string)

  function EffectOf(sha: Digest, device: DeviceId, d: Disk, op: EngineOp): Effect {
    match op
    case DoImport(v, id, name, bytes) => ImportVault(sha, device, v, id, name, bytes)
    case DoRecord(v, id, bytes) => RecordLocalChange(sha, device, d.tables, v, id, bytes)
    case DoIngest(i) => IngestReceivedRevision(sha, d.tables, i)
    case DoMerge(v, base, incoming, result, id, message) =>
      MergeRevisions(sha, device, d, v, base, incoming, result, id, message)
    case DoMove(v, id, reason) => MoveHead(d.tables, v, id, reason)
    case DoAdopt(v, name) => AdoptVault(d.tables, v, name)
  }

  /** Minted ids are new; ids that come from a peer need not be. */
  ghost predicate MintsFresh(t: Tables, op: EngineOp) {
    match op
    case DoImport(v, id, _, _) => v !in t.vaults && id !in t.rows
    case DoRecord(_, id, _) => id !in t.rows
    case DoMerge(_, _, _, _, id, _) => id !in t.rows
    case _ => true
  }

  /** Sound after every prefix of the steps. */
  ghost predicate SoundThroughout(sha: Digest, d: Disk, steps: seq<Durable>) {
    forall k :: 0 <= k <= |steps| ==> Sound(sha, Replay(sha, d, steps[..k]))
  }

  lemma NoStepsSound(sha: Digest, d: Disk)
    requires Sound(sha, d)
    ensures SoundThroughout(sha, d, [])
  {
    var none: seq<Durable> := [];
    assert none[..0] == none;
  }

  lemma OneStepSound(sha: Digest, d: Disk, s: Durable)
    requires Sound(sha, d) && Sound(sha, ApplyDurable(sha, d, s))
    ensures SoundThroughout(sha, d, [s])
  {
    OneStep(sha, d, s);
    forall k | 0 <= k <= 1
      ensures Sound(sha, Replay(sha, d, [s][..k]))
    {
      assert [s][..k] == if k == 0 then [] else [s];
    }
  }

  lemma {:induction false} ThroughoutConcat(sha: Digest, d: Disk, xs: seq<Durable>, ys: seq<Durable>)
    requires SoundThroughout(sha, d, xs) && SoundThroughout(sha, Replay(sha, d, xs), ys)
    ensures SoundThroughout(sha, d, xs + ys)
  {
    forall k | 0 <= k <= |xs + ys|
      ensures Sound(sha, Replay(sha, d, (xs + ys)[..k]))
    {
      if k <= |xs| {
        assert (xs + ys)[..k] == xs[..k];
      } else {
        var j := k - |xs|;
        assert (xs + ys)[..k] == xs + ys[..j];
        ReplayConcat(sha, d, xs, ys[..j]);
      }
    }
  }

  /** A blob, then the statements of a save each on its own. */
  lemma StoreOutsideThroughout(sha: Digest, d: Disk, r: Revision, bytes: Bytes)
    requires SizeFaithful(sha) && Sound(sha, d)
    requires r.hash == sha(bytes) && r.sizeBytes == |bytes| && r.id !in d.tables.rows && CanSave(d.tables, r)
    ensures SoundThroughout(sha, d, [PutBlob(bytes)] + Autocommit(SaveStmts(r)))
  {
    PutBlobKeeps(sha, d, bytes);
    OneStepSound(sha, d, PutBlob(bytes));
    OneStep(sha, d, PutBlob(bytes));
    var d1, ss := ApplyDurable(sha, d, PutBlob(bytes)), SaveStmts(r);
    forall k | 0 <= k <= |Autocommit(ss)|
      ensures Sound(sha, Replay(sha, d1, Autocommit(ss)[..k]))
    {
      ReplayAutocommit(sha, d1, ss, k);
      SavePrefix(d1.tables, r, k);
      SaveKeeps(sha, d1, r, k);
    }
    ThroughoutConcat(sha, d, [PutBlob(bytes)], Autocommit(ss));
  }

  lemma {:induction false} SaveAllTables(t: Tables, r: Revision)
    ensures RunStmts(t, SaveStmts(r)) == AfterSave(t, r, 1 + |r.parentIds|)
  {
    SavePrefix(t, r, 1 + |r.parentIds|);
    assert SaveStmts(r)[..1 + |r.parentIds|] == SaveStmts(r);
  }

  /** A save and the head move onto it, in one commit. */
  lemma SaveAndMoveKeeps(sha: Digest, d: Disk, vaultId: VaultId, r: Revision)
    requires Sound(sha, d) && r.id !in d.tables.rows && CanSave(d.tables, r) && BlobReady(d, r)
    requires r.vaultId == vaultId
    ensures vaultId in d.tables.vaults
    ensures var ss := SaveStmts(r) + MoveHeadStmts(vaultId, d.tables.vaults[vaultId], r.id, Promote);
      Sound(sha, d.(tables := RunStmts(d.tables, ss)))
  {
    var move := MoveHeadStmts(vaultId, d.tables.vaults[vaultId], r.id, Promote);
    SaveAllTables(d.tables, r);
    SaveKeeps(sha, d, r, 1 + |r.parentIds|);
    MoveKeeps(sha, d.(tables := AfterSave(d.tables, r, 1 + |r.parentIds|)), vaultId, r.id, Promote);
    RunStmtsConcat(d.tables, SaveStmts(r), move);
  }

  lemma {:induction false} BlobThenCommit(sha: Digest, d: Disk, bytes: Bytes, ss: seq<Stmt>)
    requires Sound(sha, d)
    requires var d1 := ApplyDurable(sha, d, PutBlob(bytes)); Sound(sha, d1.(tables := RunStmts(d1.tables, ss)))
    ensures SoundThroughout(sha, d, [PutBlob(bytes), Commit(ss)])
  {
    PutBlobKeeps(sha, d, bytes);
    OneStepSound(sha, d, PutBlob(bytes));
    OneStep(sha, d, PutBlob(bytes));
    OneStepSound(sha, ApplyDurable(sha, d, PutBlob(bytes)), Commit(ss));
    ThroughoutConcat(sha, d, [PutBlob(bytes)], [Commit(ss)]);
    assert [PutBlob(bytes)] + [Commit(ss)] == [PutBlob(bytes), Commit(ss)];
  }

  lemma ImportThroughout(sha: Digest, device: DeviceId, d: Disk, v: VaultId, id: RevisionId, name: string, bytes: Bytes)
    requires SizeFaithful(sha) && Sound(sha, d) && v !in d.tables.vaults && id !in d.tables.rows
    ensures SoundThroughout(sha, d, ImportVault(sha, device, v, id, name, bytes).steps)
  {
    hide Sound, MoveHeadStmts, SaveStmts, SoundThroughout;
    PutBlobKeeps(sha, d, bytes);
    var d1 := ApplyDurable(sha, d, PutBlob(bytes));
    var r := ImportedRevision(id, v, sha(bytes), |bytes|, name, device);
    var first := [UpsertVault(v, Vault(name, None))];
    var rest := SaveStmts(r) + MoveHeadStmts(v, Vault(name, None), id, Promote);
    NewVaultKeeps(sha, d1, v, name);
    RunStmtsAppend(d1.tables, [], first[0]);
    SaveAndMoveKeeps(sha, d1.(tables := RunStmts(d1.tables, first)), v, r);
    RunStmtsConcat(d1.tables, first, rest);
    assert first + rest == first + SaveStmts(r) + MoveHeadStmts(v, Vault(name, None), id, Promote);
    BlobThenCommit(sha, d, bytes, first + rest);
  }

  lemma RecordThroughout(sha: Digest, device: DeviceId, d: Disk, v: VaultId, id: RevisionId, bytes: Bytes)
    requires SizeFaithful(sha) && Sound(sha, d) && id !in d.tables.rows
    ensures SoundThroughout(sha, d, RecordLocalChange(sha, device, d.tables, v, id, bytes).steps)
  {
    hide Sound, MoveHeadStmts, SaveStmts, SoundThroughout, RunStmts;
    NoStepsSound(sha, d);
    PutBlobKeeps(sha, d, bytes);
    OneStepSound(sha, d, PutBlob(bytes));
    if v in d.tables.vaults {
      var r := LocalChangeRevision(id, v, sha(bytes), |bytes|, d.tables.vaults[v].head, device);
      if CanSave(d.tables, r) {
        SaveAndMoveKeeps(sha, ApplyDurable(sha, d, PutBlob(bytes)), v, r);
        BlobThenCommit(sha, d, bytes, SaveStmts(r) + MoveHeadStmts(v, d.tables.vaults[v], id, Promote));
      }
    }
  }

  lemma IngestThroughout(sha: Digest, d: Disk, i: ReceivedInput)
    requires SizeFaithful(sha) && Sound(sha, d)
    ensures SoundThroughout(sha, d, IngestReceivedRevision(sha, d.tables, i).steps)
  {
    NoStepsSound(sha, d);
    PutBlobKeeps(sha, d, i.bytes);
    OneStepSound(sha, d, PutBlob(i.bytes));
    if IngestReceivedRevision(sha, d.tables, i).outcome.Stored? {
      StoreOutsideThroughout(sha, d, ReceivedRevision(i), i.bytes);
    }
  }

  lemma MergeThroughout(sha: Digest, device: DeviceId, d: Disk, v: VaultId, base: RevisionId, incoming: seq<RevisionId>,
      result: MergeResult, id: RevisionId, message: string)
    requires SizeFaithful(sha) && Sound(sha, d) && id !in d.tables.rows
    ensures SoundThroughout(sha, d, MergeRevisions(sha, device, d, v, base, incoming, result, id, message).steps)
  {
    var e := MergeRevisions(sha, device, d, v, base, incoming, result, id, message);
    if e.outcome.Merged? {
      var r := MergedRevision(id, v, sha(result.bytes), |result.bytes|, base, incoming, device, message);
      MergedCanSave(sha, device, d, v, base, incoming, result, id, message);
      StoreOutsideThroughout(sha, d, r, result.bytes);
    } else if e.steps == [] {
      NoStepsSound(sha, d);
    } else {
      PutBlobKeeps(sha, d, result.bytes);
      OneStepSound(sha, d, PutBlob(result.bytes));
    }
  }

  /** A merge that goes through records all its stored inputs as parents. */
  lemma MergedCanSave(sha: Digest, device: DeviceId, d: Disk, v: VaultId, base: RevisionId, incoming: seq<RevisionId>,
      result: MergeResult, id: RevisionId, message: string)
    requires MergeRevisions(sha, device, d, v, base, incoming, result, id, message).outcome.Merged?
    ensures result.MergeSucceeded?
    ensures CanSave(d.tables, MergedRevision(id, v, sha(result.bytes), |result.bytes|, base, incoming, device, message))
  {
    forall p | p in [base] + incoming
      ensures p in d.tables.rows
    {
      assert p == base || p in incoming;
      assert Readable(d, p);
    }
  }

  /** Every operation is sound after each of its durable steps. */
  lemma OperationThroughout(sha: Digest, device: DeviceId, d: Disk, op: EngineOp)
    requires SizeFaithful(sha) && Sound(sha, d) && MintsFresh(d.tables, op)
    ensures SoundThroughout(sha, d, EffectOf(sha, device, d, op).steps)
  {
    match op
    case DoImport(v, id, name, bytes) => ImportThroughout(sha, device, d, v, id, name, bytes);
    case DoRecord(v, id, bytes) => RecordThroughout(sha, device, d, v, id, bytes);
    case DoIngest(i) => IngestThroughout(sha, d, i);
    case DoMerge(v, base, incoming, result, id, message) =>
      MergeThroughout(sha, device, d, v, base, incoming, result, id, message);
    case DoMove(v, id, reason) =>
      NoStepsSound(sha, d);
      if MoveHead(d.tables, v, id, reason).outcome.HeadMoved? {
        MoveKeeps(sha, d, v, id, reason);
        OneStepSound(sha, d, Commit(MoveHeadStmts(v, d.tables.vaults[v], id, reason)));
      }
    case DoAdopt(v, name) =>
      NoStepsSound(sha, d);
      if v !in d.tables.vaults {
        NewVaultKeeps(sha, d, v, name);
        OneStepSound(sha, d, Commit([UpsertVault(v, Vault(name, None))]));
      }
  }

  // ---- undoing a head move -----------------------------------------------------

  /** Needs an event of this vault that knows where the head was. */
  function UndoLastHeadMove(v: VaultId, vault: Vault, last: HeadEvent): Option<(Vault, HeadEvent)> {
    if last.vaultId != v || last.previous.None? then None else Some(MovedHead(v, vault, last.previous.value, Undo))
  }

  /**
   Undoing the move just made is possible exactly if there was a head before; it gives back the very
   vault, the log stays a linked chain, and undoing the undo moves forward again.
   */
  lemma {:induction false} UndoUndoes(log: seq<HeadEvent>, v: VaultId, vault: Vault, next: RevisionId, reason: MoveReason)
    requires LogLinked(log, v, vault.head)
    ensures var (moved, event) := MovedHead(v, vault, next, reason);
      var undone := UndoLastHeadMove(v, moved, event);
      && LogLinked(log + [event], v, moved.head)
      && (undone.Some? <==> vault.head.Some?)
      && (undone.Some? ==>
            && undone.value.0 == vault && LogLinked(log + [event] + [undone.value.1], v, vault.head)
            && UndoLastHeadMove(v, vault, undone.value.1) == Some(MovedHead(v, vault, next, Undo)))
  {
    var (moved, event) := MovedHead(v, vault, next, reason);
    assert (log + [event])[..|log|] == log;
    var undone := UndoLastHeadMove(v, moved, event);
    if undone.Some? {
      assert (log + [event] + [undone.value.1])[..|log| + 1] == log + [event];
    }
  }

  // ---- runs and crashes -----------------------------------------------------

  /** The durable steps of a run of operations, each seeing the disk the ones before it left. */
  function RunSteps(sha: Digest, device: DeviceId, d: Disk, ops: seq<EngineOp>): seq<Durable> {
    if |ops| == 0 then []
    else
      var before := RunSteps(sha, device, d, ops[..|ops| - 1]);
      before + EffectOf(sha, device, Replay(sha, d, before), ops[|ops| - 1]).steps
  }

  ghost predicate FreshRun(sha: Digest, device: DeviceId, d: Disk, ops: seq<EngineOp>) {
    |ops| > 0 ==>
      && FreshRun(sha, device, d, ops[..|ops| - 1])
      && MintsFresh(Replay(sha, d, RunSteps(sha, device, d, ops[..|ops| - 1])).tables, ops[|ops| - 1])
  }

  /** Stopping any run after any durable step leaves a sound store. */
  lemma {:induction false} CrashAnywhereIsSound(sha: Digest, device: DeviceId, d: Disk, ops: seq<EngineOp>)
    requires SizeFaithful(sha) && Sound(sha, d) && FreshRun(sha, device, d, ops)
    ensures SoundThroughout(sha, d, RunSteps(sha, device, d, ops))
  {
    if |ops| == 0 {
      NoStepsSound(sha, d);
    } else {
      var earlier := ops[..|ops| - 1];
      CrashAnywhereIsSound(sha, device, d, earlier);
      var before := RunSteps(sha, device, d, earlier);
      var mid := Replay(sha, d, before);
      assert before[..|before|] == before;
      OperationThroughout(sha, device, mid, ops[|ops| - 1]);
      ThroughoutConcat(sha, d, before, EffectOf(sha, device, mid, ops[|ops| - 1]).steps);
    }
  }

  ghost predicate BlobsKept(d: Disk, d': Disk) {
    forall h :: h in d.blobs ==> h in d'.blobs && d'.blobs[h] == d.blobs[h]
  }

  /** Blobs are only ever added. */
  lemma {:induction false} BlobsOnlyGrow(sha: Digest, d: Disk, steps: seq<Durable>, i: nat, j: nat)
    requires i <= j <= |steps|
    ensures BlobsKept(Replay(sha, d, steps[..i]), Replay(sha, d, steps[..j]))
  {
    if i < j {
      BlobsOnlyGrow(sha, d, steps, i, j - 1);
      assert steps[..j] == steps[..j - 1] + [steps[j - 1]];
      ReplayAppend(sha, d, steps[..j - 1], steps[j - 1]);
    }
  }

  /**
   A metadata file that was flushed earlier than the blobs beside it is sound too: any committed
   tables go with any later blob set.
   */
  lemma {:induction false} StaleMetadataIsSound(sha: Digest, device: DeviceId, d: Disk, ops: seq<EngineOp>, i: nat, j: nat)
    requires SizeFaithful(sha) && Sound(sha, d) && FreshRun(sha, device, d, ops)
    requires i <= j <= |RunSteps(sha, device, d, ops)|
    ensures var steps := RunSteps(sha, device, d, ops);
      Sound(sha, Disk(Replay(sha, d, steps[..j]).blobs, Replay(sha, d, steps[..i]).tables))
  {
    var steps := RunSteps(sha, device, d, ops);
    CrashAnywhereIsSound(sha, device, d, ops);
    BlobsOnlyGrow(sha, d, steps, i, j);
    var early, late := Replay(sha, d, steps[..i]), Replay(sha, d, steps[..j]);
    assert Sound(sha, early) && Sound(sha, late);
    var mixed := Disk(late.blobs, early.tables);
    assert BlobBacked(mixed) && BlobsGenuine(sha, mixed);
  }

  /** Later metadata with earlier blobs would not do: the row can arrive before its bytes. */
  lemma LateMetadataNeedsItsBlob(sha: Digest, device: DeviceId, v: VaultId, id: RevisionId, name: string, bytes: Bytes)
    ensures var steps := ImportVault(sha, device, v, id, name, bytes).steps;
      !BlobBacked(Disk(Replay(sha, EMPTY_DISK, steps[..0]).blobs, Replay(sha, EMPTY_DISK, steps).tables))
  {
    var steps := ImportVault(sha, device, v, id, name, bytes).steps;
    var r := ImportedRevision(id, v, sha(bytes), |bytes|, name, device);
    var first := [UpsertVault(v, Vault(name, None))];
    var move := MoveHeadStmts(v, Vault(name, None), id, Promote);
    TwoSteps(sha, EMPTY_DISK, steps[0], steps[1]);
    RunStmtsConcat(EMPTY_TABLES, first + SaveStmts(r), move);
    RunStmtsConcat(EMPTY_TABLES, first, SaveStmts(r));
    SaveAllTables(RunStmts(EMPTY_TABLES, first), r);
    MoveTables(RunStmts(EMPTY_TABLES, first + SaveStmts(r)), v, Vault(name, None), id, Promote);
    assert id in Replay(sha, EMPTY_DISK, steps).tables.rows;
  }

  // ---- what one operation leaves alone ---------------------------------------

  /** Every revision stored before is stored unchanged, parents included. */
  ghost predicate HistoryKept(t: Tables, u: Tables) {
    forall id :: id in t.rows ==> id in u.rows && u.rows[id] == t.rows[id] && ParentsOf(u, id) == ParentsOf(t, id)
  }

  lemma KeptTransitive(t: Tables, u: Tables, x: Tables)
    requires HistoryKept(t, u) && HistoryKept(u, x)
    ensures HistoryKept(t, x)
  {
  }

  /** A completed ingest: the new revision verbatim, nothing else touched, no head moved. */
  lemma {:induction false} IngestIsVerbatim(sha: Digest, d: Disk, i: ReceivedInput)
    requires Sound(sha, d) && IngestReceivedRevision(sha, d.tables, i).outcome.Stored?
    ensures var u := Replay(sha, d, IngestReceivedRevision(sha, d.tables, i).steps).tables;
      && HistoryKept(d.tables, u)
      && u.rows.Keys == d.tables.rows.Keys + {i.revisionId}
      && u.rows[i.revisionId] == RowOf(ReceivedRevision(i))
      && NoDuplicates(ParentsOf(u, i.revisionId))
      && SeqToSet(ParentsOf(u, i.revisionId)) == SeqToSet(i.declaredParentIds)
      && u.vaults == d.tables.vaults && u.headEvents == d.tables.headEvents
  {
    hide Sound, IngestReceivedRevision, Replay, HistoryKept, RowOf;
    var r := ReceivedRevision(i);
    var n := 2 + |i.declaredParentIds|;
    IngestPrefix(sha, d, i, n);
    StoredSteps(sha, d.tables, i);
    SoundKeys(sha, d);
    var steps := IngestReceivedRevision(sha, d.tables, i).steps;
    assert steps[..n] == steps;
    SavedWhole(d.tables, r);
  }

  /** A save of a fresh revision, all of its statements done. */
  lemma SavedWhole(t: Tables, r: Revision)
    requires KeysResolve(t) && r.id !in t.rows
    ensures var u := AfterSave(t, r, 1 + |r.parentIds|);
      && HistoryKept(t, u) && u.rows.Keys == t.rows.Keys + {r.id} && u.rows[r.id] == RowOf(r)
      && NoDuplicates(ParentsOf(u, r.id)) && SeqToSet(ParentsOf(u, r.id)) == SeqToSet(r.parentIds)
      && u.vaults == t.vaults && u.headEvents == t.headEvents
  {
    hide KeysResolve, Merge;
    NoEdgesYet(t, r.id);
    assert r.parentIds[..|r.parentIds|] == r.parentIds;
    MergeStep0(r.parentIds);
  }

  lemma StoredSteps(sha: Digest, t: Tables, i: ReceivedInput)
    requires IngestReceivedRevision(sha, t, i).outcome.Stored?
    ensures IngestReceivedRevision(sha, t, i).steps == [PutBlob(i.bytes)] + Autocommit(SaveStmts(ReceivedRevision(i)))
    ensures i.revisionId !in t.rows
  {
    hide SaveStmts, Autocommit;
  }

  /** What a crash after `k` steps of a save outside a transaction leaves behind. */
  lemma {:induction false} OutsidePrefix(sha: Digest, d: Disk, r: Revision, bytes: Bytes, k: nat)
    requires 1 <= k <= 2 + |r.parentIds|
    ensures var steps := [PutBlob(bytes)] + Autocommit(SaveStmts(r));
      |steps| == 2 + |r.parentIds| && Replay(sha, d, steps[..k]).tables == AfterSave(d.tables, r, k - 1)
  {
    hide AfterSave, Replay, SaveStmts, Autocommit;
    var ss := SaveStmts(r);
    assert ([PutBlob(bytes)] + Autocommit(ss))[..k] == [PutBlob(bytes)] + Autocommit(ss)[..k - 1];
    ReplayConcat(sha, d, [PutBlob(bytes)], Autocommit(ss)[..k - 1]);
    OneStep(sha, d, PutBlob(bytes));
    ReplayAutocommit(sha, ApplyDurable(sha, d, PutBlob(bytes)), ss, k - 1);
    SavePrefix(d.tables, r, k - 1);
  }

  /** What a crash after `k` steps of a successful ingest leaves behind. */
  lemma {:induction false} IngestPrefix(sha: Digest, d: Disk, i: ReceivedInput, k: nat)
    requires IngestReceivedRevision(sha, d.tables, i).outcome.Stored?
    requires 1 <= k <= 2 + |i.declaredParentIds|
    ensures var steps := IngestReceivedRevision(sha, d.tables, i).steps;
      && |steps| == 2 + |i.declaredParentIds|
      && Replay(sha, d, steps[..k]).tables == AfterSave(d.tables, ReceivedRevision(i), k - 1)
  {
    hide IngestReceivedRevision, AfterSave, Replay, SaveStmts, Autocommit;
    StoredSteps(sha, d.tables, i);
    OutsidePrefix(sha, d, ReceivedRevision(i), i.bytes, k);
  }

  /** The revision has exactly the parents it was made with. */
  ghost predicate ParentsComplete(t: Tables, r: Revision) {
    SeqToSet(ParentsOf(t, r.id)) == SeqToSet(r.parentIds)
  }

  /** After the row and the first edges, the parents are complete exactly if the other edges repeat those. */
  lemma CompleteSoFarIff(t: Tables, r: Revision, k: nat)
    requires KeysResolve(t) && r.id !in t.rows && 1 <= k <= 1 + |r.parentIds|
    ensures var u := AfterSave(t, r, k);
      && r.id in u.rows
      && (ParentsComplete(u, r) <==> SeqToSet(r.parentIds[k - 1..]) <= SeqToSet(r.parentIds[..k - 1]))
  {
    hide Merge, KeysResolve;
    var u, ps := AfterSave(t, r, k), r.parentIds;
    AfterSaveGraph(t, r, k);
    assert r.id in GraphOf(u) && GraphOf(u)[r.id] == ParentsOf(u, r.id) == Merge([], ps[..k - 1]);
    assert SeqToSet(ParentsOf(u, r.id)) == SeqToSet(ps[..k - 1]);
    PrefixCovers(ps, k - 1);
  }

  /**
   The saves of an ingest are not in a transaction, so a crash can store the row with only some of
   its parents; the parents are those declared exactly when every one of them occurs among the
   edges already inserted. The row then counts as present, and a later ingest leaves it as it is.
   */
  lemma {:induction false} CrashMidIngestIff(sha: Digest, d: Disk, i: ReceivedInput, k: nat)
    requires Sound(sha, d) && IngestReceivedRevision(sha, d.tables, i).outcome.Stored?
    requires 2 <= k <= 2 + |i.declaredParentIds|
    ensures var u := Replay(sha, d, IngestReceivedRevision(sha, d.tables, i).steps[..k]).tables;
      && (ParentsComplete(u, ReceivedRevision(i))
          <==> SeqToSet(i.declaredParentIds[k - 2..]) <= SeqToSet(i.declaredParentIds[..k - 2]))
      && IngestReceivedRevision(sha, u, i) == Effect([], AlreadyPresent(i.revisionId))
  {
    hide Sound, IngestReceivedRevision, AfterSave, Replay, ParentsComplete;
    IngestPrefix(sha, d, i, k);
    StoredSteps(sha, d.tables, i);
    SoundKeys(sha, d);
    CompleteSoFarIff(d.tables, ReceivedRevision(i), k - 1);
    AgainIsPresent(sha, AfterSave(d.tables, ReceivedRevision(i), k - 1), i);
  }

  /** The worst moment to crash, whatever was declared: after the row, before its first edge, no parent is there. */
  lemma {:induction false} CrashCanLoseAParent(sha: Digest, d: Disk, i: ReceivedInput)
    requires Sound(sha, d) && IngestReceivedRevision(sha, d.tables, i).outcome.Stored?
    ensures var u := Replay(sha, d, IngestReceivedRevision(sha, d.tables, i).steps[..2]).tables;
      i.revisionId in u.rows && ParentsOf(u, i.revisionId) == []
  {
    hide Sound, IngestReceivedRevision, Replay;
    IngestPrefix(sha, d, i, 2);
    StoredSteps(sha, d.tables, i);
    SoundKeys(sha, d);
    NoEdgesYet(d.tables, i.revisionId);
  }

  /** Wherever a successful ingest stops once its row is there, no parent is missing: only if it declares none. */
  lemma {:induction false} NoIngestCrashLosesIff(sha: Digest, d: Disk, i: ReceivedInput)
    requires Sound(sha, d) && IngestReceivedRevision(sha, d.tables, i).outcome.Stored?
    ensures (forall k :: 2 <= k <= 2 + |i.declaredParentIds| ==>
               ParentsComplete(Replay(sha, d, IngestReceivedRevision(sha, d.tables, i).steps[..k]).tables, ReceivedRevision(i)))
       <==> i.declaredParentIds == []
  {
    hide Sound, IngestReceivedRevision, Replay, ParentsComplete;
    var ps, steps := i.declaredParentIds, IngestReceivedRevision(sha, d.tables, i).steps;
    IngestPrefix(sha, d, i, 2);
    forall k | 2 <= k <= 2 + |ps|
      ensures ParentsComplete(Replay(sha, d, steps[..k]).tables, ReceivedRevision(i))
         <==> SeqToSet(ps[k - 2..]) <= SeqToSet(ps[..k - 2])
    {
      CrashMidIngestIff(sha, d, i, k);
    }
    assert ps != [] ==> ps[0] in SeqToSet(ps[0..]) && ps[0] !in SeqToSet(ps[..0]);
  }

  /**
   A merge is saved the same way, and names each parent once: a crash anywhere between the row and the
   last edge loses a parent.
   */
  lemma {:induction false} CrashMidMergeIff(sha: Digest, device: DeviceId, d: Disk, v: VaultId, base: RevisionId, incoming: seq<RevisionId>,
      result: MergeResult, id: RevisionId, message: string, k: nat)
    requires Sound(sha, d) && id !in d.tables.rows
    requires MergeRevisions(sha, device, d, v, base, incoming, result, id, message).outcome.Merged?
    requires 2 <= k <= |MergeRevisions(sha, device, d, v, base, incoming, result, id, message).steps|
    ensures var steps := MergeRevisions(sha, device, d, v, base, incoming, result, id, message).steps;
      var u := Replay(sha, d, steps[..k]).tables;
      var r := MergedRevision(id, v, sha(result.bytes), |result.bytes|, base, incoming, device, message);
      id in u.rows && (ParentsComplete(u, r) <==> k == |steps|)
  {
    hide Sound, AfterSave, Replay, ParentsComplete, SaveStmts, Autocommit, CanSave;
    var r := MergedRevision(id, v, sha(result.bytes), |result.bytes|, base, incoming, device, message);
    OutsidePrefix(sha, d, r, result.bytes, k);
    SoundKeys(sha, d);
    CompleteSoFarIff(d.tables, r, k - 1);
    OnceEachCovers(r.parentIds, k - 2);
  }

  lemma OnceEachCovers(ps: seq<RevisionId>, n: nat)
    requires NoDuplicates(ps) && n <= |ps|
    ensures SeqToSet(ps[n..]) <= SeqToSet(ps[..n]) <==> n == |ps|
  {
    if n < |ps| {
      assert ps[n] in SeqToSet(ps[n..]);
      assert forall x :: x in ps[..n] ==> exists i :: 0 <= i < n && ps[i] == x;
    }
  }

  lemma SoundKeys(sha: Digest, d: Disk)
    requires Sound(sha, d)
    ensures KeysResolve(d.tables)
  {
    hide Closed, Acyclic, KeysResolve;
  }

  lemma AgainIsPresent(sha: Digest, t: Tables, i: ReceivedInput)
    requires i.revisionId in t.rows
    ensures IngestReceivedRevision(sha, t, i) == Effect([], AlreadyPresent(i.revisionId))
  {
  }

  lemma PrefixCovers(ps: seq<RevisionId>, n: nat)
    requires n <= |ps|
    ensures SeqToSet(ps[..n]) == SeqToSet(ps) <==> SeqToSet(ps[n..]) <= SeqToSet(ps[..n])
  {
    assert ps == ps[..n] + ps[n..];
    assert SeqToSet(ps) == SeqToSet(ps[..n]) + SeqToSet(ps[n..]);
  }

  /**
   Saving under any id, stored or not, keeps the history acyclic exactly when no declared parent
   already rests on that id: the reason ids must be fresh and a stored id must not be ingested again.
   */
  lemma SaveAcyclicIff(sha: Digest, d: Disk, r: Revision)
    requires Sound(sha, d) && CanSave(d.tables, r)
    ensures Acyclic(GraphOf(AfterSave(d.tables, r, 1 + |r.parentIds|)))
       <==> forall p :: p in r.parentIds ==> !Reaches(GraphOf(d.tables), r.id, p)
  {
    var t := d.tables;
    var u := AfterSave(t, r, 1 + |r.parentIds|);
    var g, h := GraphOf(u), WithParents(GraphOf(t), r.id, r.parentIds);
    assert r.parentIds[..|r.parentIds|] == r.parentIds;
    assert r.id !in t.rows ==> ParentsOf(t, r.id) == [];
    forall c, p
      ensures Edge(g, c, p) <==> Edge(h, c, p)
    {
      if c == r.id && c in u.rows {
        if |r.parentIds| == 0 {
          assert u.parents == t.parents;
        } else {
          assert ParentsOf(u, c) == Merge(ParentsOf(t, c), r.parentIds);
        }
      } else {
        assert ParentsOf(u, c) == ParentsOf(t, c);
      }
    }
    AddingParentsAcyclicIff(GraphOf(t), r.id, r.parentIds);
    if Acyclic(h) {
      AcyclicSubgraph(g, h);
    }
    if Acyclic(g) {
      AcyclicSubgraph(h, g);
    }
  }
}
