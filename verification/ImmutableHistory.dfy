/**
 History is immutable. No operation of the engine changes a stored revision or its parents, at any
 durable step of any run; so a revision that an operation completed keeps its row and its declared
 parents for ever.
 */
module ImmutableHistory {
  import opened Basics
  import opened Framing
  import opened Store
  import opened Engine
  import opened EngineRuns

  // ---- statements that touch no stored revision ---------------------------------

  /** The statement inserts no row and no edge under an id that `t` stores. */
  ghost predicate Avoids(t: Tables, s: Stmt) {
    match s
    case InsertRow(id, _) => id !in t.rows
    case InsertParent(child, _) => child !in t.rows
    case _ => true
  }

  ghost predicate AllAvoid(t: Tables, ss: seq<Stmt>) {
    forall s :: s in ss ==> Avoids(t, s)
  }

  ghost predicate StepsAvoid(t: Tables, steps: seq<Durable>) {
    forall s :: s in steps && s.Commit? ==> AllAvoid(t, s.stmts)
  }

  lemma StmtKeeps(t: Tables, u: Tables, s: Stmt)
    requires HistoryKept(t, u) && Avoids(t, s)
    ensures HistoryKept(t, ApplyStmt(u, s))
  {
    hide AddDistinct;
  }

  lemma {:induction false} StmtsKeep(t: Tables, u: Tables, ss: seq<Stmt>)
    requires HistoryKept(t, u) && AllAvoid(t, ss)
    ensures HistoryKept(t, RunStmts(u, ss))
  {
    hide HistoryKept, ApplyStmt, Avoids;
    if |ss| > 0 {
      StmtsKeep(t, u, ss[..|ss| - 1]);
      StmtKeeps(t, RunStmts(u, ss[..|ss| - 1]), ss[|ss| - 1]);
    }
  }

  /** After each of the steps, what `t` stored is as it was. */
  lemma {:induction false} StepsKeep(sha: Digest, t: Tables, d: Disk, steps: seq<Durable>, k: nat)
    requires HistoryKept(t, d.tables) && StepsAvoid(t, steps) && k <= |steps|
    ensures HistoryKept(t, Replay(sha, d, steps[..k]).tables)
  {
    hide HistoryKept, AllAvoid, RunStmts;
    if k > 0 {
      StepsKeep(sha, t, d, steps, k - 1);
      assert steps[..k] == steps[..k - 1] + [steps[k - 1]];
      ReplayAppend(sha, d, steps[..k - 1], steps[k - 1]);
      assert steps[k - 1] in steps;
      if steps[k - 1].Commit? {
        StmtsKeep(t, Replay(sha, d, steps[..k - 1]).tables, steps[k - 1].stmts);
      }
    }
  }

  // ---- operations ------------------------------------------------------------------

  lemma SaveAvoids(t: Tables, r: Revision)
    requires r.id !in t.rows
    ensures AllAvoid(t, SaveStmts(r)) && StepsAvoid(t, Autocommit(SaveStmts(r)))
  {
    forall s | s in Autocommit(SaveStmts(r))
      ensures s.Commit? && AllAvoid(t, s.stmts)
    {
    }
  }

  lemma MoveAvoids(t: Tables, v: VaultId, vault: Vault, id: RevisionId, reason: MoveReason)
    ensures AllAvoid(t, MoveHeadStmts(v, vault, id, reason))
  {
  }

  lemma SaveAndMoveAvoid(t: Tables, first: seq<Stmt>, r: Revision, v: VaultId, vault: Vault, bytes: Bytes)
    requires r.id !in t.rows && AllAvoid(t, first)
    ensures StepsAvoid(t, [PutBlob(bytes), Commit(first + SaveStmts(r) + MoveHeadStmts(v, vault, r.id, Promote))])
  {
    hide SaveStmts, MoveHeadStmts, Avoids, Autocommit;
    SaveAvoids(t, r);
    MoveAvoids(t, v, vault, r.id, Promote);
  }

  lemma StoreOutsideAvoids(t: Tables, r: Revision, bytes: Bytes)
    requires r.id !in t.rows
    ensures StepsAvoid(t, [PutBlob(bytes)] + Autocommit(SaveStmts(r)))
  {
    hide SaveStmts, AllAvoid, Autocommit;
    SaveAvoids(t, r);
  }

  /** Every operation that mints a fresh id inserts rows and edges under fresh ids alone. */
  lemma OperationAvoids(sha: Digest, device: DeviceId, d: Disk, op: EngineOp)
    requires MintsFresh(d.tables, op)
    ensures StepsAvoid(d.tables, EffectOf(sha, device, d, op).steps)
  {
    hide SaveStmts, MoveHeadStmts, Autocommit, AllReadable, CanSave;
    var t := d.tables;
    match op {
      case DoImport(v, id, name, bytes) =>
        SaveAndMoveAvoid(t, [UpsertVault(v, Vault(name, None))], ImportedRevision(id, v, sha(bytes), |bytes|, name, device), v,
          Vault(name, None), bytes);
      case DoRecord(v, id, bytes) =>
        if v in t.vaults {
          var vault := t.vaults[v];
          var r := LocalChangeRevision(id, v, sha(bytes), |bytes|, vault.head, device);
          SaveAndMoveAvoid(t, [], r, v, vault, bytes);
          assert [] + SaveStmts(r) + MoveHeadStmts(v, vault, id, Promote) == SaveStmts(r) + MoveHeadStmts(v, vault, id, Promote);
        }
      case DoIngest(i) =>
        if i.revisionId !in t.rows {
          StoreOutsideAvoids(t, ReceivedRevision(i), i.bytes);
        }
      case DoMerge(v, base, incoming, result, id, message) =>
        if result.MergeSucceeded? {
          StoreOutsideAvoids(t, MergedRevision(id, v, sha(result.bytes), |result.bytes|, base, incoming, device, message), result.bytes);
        }
      case DoMove(v, id, reason) =>
        if v in t.vaults {
          MoveAvoids(t, v, t.vaults[v], id, reason);
        }
      case DoAdopt(v, name) =>
    }
  }

  // ---- runs -------------------------------------------------------------------------

  /** The disk when the first `m` operations of a run are done. */
  function DiskAfter(sha: Digest, device: DeviceId, d: Disk, ops: seq<EngineOp>, m: nat): Disk
    requires m <= |ops|
  {
    Replay(sha, d, RunSteps(sha, device, d, ops[..m]))
  }

  /** The durable steps of a run begin with those of its first operations. */
  lemma {:induction false} StepsOfFirst(sha: Digest, device: DeviceId, d: Disk, ops: seq<EngineOp>, m: nat)
    requires m <= |ops|
    ensures RunSteps(sha, device, d, ops[..m]) <= RunSteps(sha, device, d, ops)
  {
    hide EffectOf, Replay;
    if m < |ops| {
      StepsOfFirst(sha, device, d, ops[..|ops| - 1], m);
      assert ops[..|ops| - 1][..m] == ops[..m];
    } else {
      assert ops[..m] == ops;
    }
  }

  /**
   What is stored when an operation of the run is done is stored unchanged, parents included, after
   every later durable step: whatever the other operations do, and wherever the run is cut off.
   */
  lemma {:induction false} HistoryNeverRewritten(sha: Digest, device: DeviceId, d: Disk, ops: seq<EngineOp>, m: nat, k: nat)
    requires FreshRun(sha, device, d, ops) && m <= |ops|
    requires |RunSteps(sha, device, d, ops[..m])| <= k <= |RunSteps(sha, device, d, ops)|
    ensures HistoryKept(DiskAfter(sha, device, d, ops, m).tables, Replay(sha, d, RunSteps(sha, device, d, ops)[..k]).tables)
  {
    hide EffectOf, Replay, HistoryKept, MintsFresh, StepsAvoid;
    var steps := RunSteps(sha, device, d, ops);
    if m == |ops| {
      assert ops[..m] == ops && steps[..k] == steps;
      KeptSelf(DiskAfter(sha, device, d, ops, m).tables);
    } else {
      var earlier, op := ops[..|ops| - 1], ops[|ops| - 1];
      var before := RunSteps(sha, device, d, earlier);
      assert earlier[..m] == ops[..m];
      StepsOfFirst(sha, device, d, earlier, m);
      if k <= |before| {
        HistoryNeverRewritten(sha, device, d, earlier, m, k);
        assert steps[..k] == before[..k];
      } else {
        HistoryNeverRewritten(sha, device, d, earlier, m, |before|);
        assert before[..|before|] == before;
        LastOperationKeeps(sha, device, d, before, op, k - |before|);
        assert steps[..k] == before + EffectOf(sha, device, Replay(sha, d, before), op).steps[..k - |before|];
        KeptTransitive(DiskAfter(sha, device, d, ops, m).tables, Replay(sha, d, before).tables, Replay(sha, d, steps[..k]).tables);
      }
    }
  }

  lemma KeptSelf(t: Tables)
    ensures HistoryKept(t, t)
  {
  }

  lemma {:induction false} LastOperationKeeps(sha: Digest, device: DeviceId, d: Disk, before: seq<Durable>, op: EngineOp, j: nat)
    requires MintsFresh(Replay(sha, d, before).tables, op)
    requires j <= |EffectOf(sha, device, Replay(sha, d, before), op).steps|
    ensures var mid := Replay(sha, d, before);
      HistoryKept(mid.tables, Replay(sha, d, before + EffectOf(sha, device, mid, op).steps[..j]).tables)
  {
    hide EffectOf, Replay, HistoryKept, MintsFresh, StepsAvoid;
    var mid := Replay(sha, d, before);
    var steps := EffectOf(sha, device, mid, op).steps;
    OperationAvoids(sha, device, mid, op);
    KeptSelf(mid.tables);
    StepsKeep(sha, mid.tables, mid, steps, j);
    ReplayConcat(sha, d, before, steps[..j]);
  }

  // ---- what an operation completes --------------------------------------------------

  /** The revision that the operation stores, if it goes through. */
  function AddedBy(sha: Digest, device: DeviceId, d: Disk, op: EngineOp): Option<Revision> {
    var outcome := EffectOf(sha, device, d, op).outcome;
    match op
    case DoImport(v, id, name, bytes) => Some(ImportedRevision(id, v, sha(bytes), |bytes|, name, device))
    case DoRecord(v, id, bytes) =>
      if !outcome.Recorded? then None
      else Some(LocalChangeRevision(id, v, sha(bytes), |bytes|, d.tables.vaults[v].head, device))
    case DoIngest(i) => if !outcome.Stored? then None else Some(ReceivedRevision(i))
    case DoMerge(v, base, incoming, result, id, message) =>
      if !outcome.Merged? then None
      else Some(MergedRevision(id, v, sha(result.bytes), |result.bytes|, base, incoming, device, message))
    case _ => None
  }

  /** The revision is stored as it was made: its row, and exactly its parents, once each. */
  ghost predicate StoredAs(t: Tables, r: Revision) {
    && r.id in t.rows && t.rows[r.id] == RowOf(r)
    && NoDuplicates(ParentsOf(t, r.id)) && SeqToSet(ParentsOf(t, r.id)) == SeqToSet(r.parentIds)
  }

  lemma {:induction false} OutsideStores(sha: Digest, d: Disk, r: Revision, bytes: Bytes)
    requires KeysResolve(d.tables) && r.id !in d.tables.rows
    ensures StoredAs(Replay(sha, d, [PutBlob(bytes)] + Autocommit(SaveStmts(r))).tables, r)
  {
    hide KeysResolve, Replay, SaveStmts, AfterSave, HistoryKept, RowOf, Autocommit;
    var d1, ss := ApplyDurable(sha, d, PutBlob(bytes)), SaveStmts(r);
    ReplayConcat(sha, d, [PutBlob(bytes)], Autocommit(ss));
    OneStep(sha, d, PutBlob(bytes));
    ReplayAutocommit(sha, d1, ss, |ss|);
    assert Autocommit(ss)[..|ss|] == Autocommit(ss);
    SaveAllTables(d.tables, r);
    assert ss[..|ss|] == ss;
    SavedWhole(d.tables, r);
  }

  lemma {:induction false} CommitStores(sha: Digest, d: Disk, first: seq<Stmt>, r: Revision, v: VaultId, vault: Vault, bytes: Bytes)
    requires KeysResolve(RunStmts(d.tables, first)) && r.id !in RunStmts(d.tables, first).rows
    ensures StoredAs(Replay(sha, d, [PutBlob(bytes), Commit(first + SaveStmts(r) + MoveHeadStmts(v, vault, r.id, Promote))]).tables, r)
  {
    hide KeysResolve, Replay, SaveStmts, MoveHeadStmts, AfterSave, HistoryKept, RowOf, RunStmts;
    var move := MoveHeadStmts(v, vault, r.id, Promote);
    TwoSteps(sha, d, PutBlob(bytes), Commit(first + SaveStmts(r) + move));
    RunStmtsConcat(d.tables, first + SaveStmts(r), move);
    RunStmtsConcat(d.tables, first, SaveStmts(r));
    var t := RunStmts(d.tables, first);
    SaveAllTables(t, r);
    SavedWhole(t, r);
    MoveTables(RunStmts(t, SaveStmts(r)), v, vault, r.id, Promote);
  }

  /** The vault row that an import writes first. */
  lemma {:induction false} VaultFirst(t: Tables, v: VaultId, vault: Vault)
    requires KeysResolve(t)
    ensures var u := RunStmts(t, [UpsertVault(v, vault)]);
      KeysResolve(u) && u.rows == t.rows
  {
    SyncEngine.EmptyRun(t);
    RunStmtsAppend(t, [], UpsertVault(v, vault));
    assert [] + [UpsertVault(v, vault)] == [UpsertVault(v, vault)];
  }

  lemma {:induction false} OperationStores(sha: Digest, device: DeviceId, d: Disk, op: EngineOp)
    requires KeysResolve(d.tables) && MintsFresh(d.tables, op) && AddedBy(sha, device, d, op).Some?
    ensures StoredAs(Replay(sha, d, EffectOf(sha, device, d, op).steps).tables, AddedBy(sha, device, d, op).value)
  {
    hide KeysResolve, Replay, SaveStmts, MoveHeadStmts, StoredAs, AllReadable, CanSave, RunStmts, Autocommit;
    var r := AddedBy(sha, device, d, op).value;
    match op {
      case DoImport(v, id, name, bytes) =>
        VaultFirst(d.tables, v, Vault(name, None));
        CommitStores(sha, d, [UpsertVault(v, Vault(name, None))], r, v, Vault(name, None), bytes);
      case DoRecord(v, id, bytes) =>
        var vault := d.tables.vaults[v];
        SyncEngine.EmptyRun(d.tables);
        CommitStores(sha, d, [], r, v, vault, bytes);
        assert [] + SaveStmts(r) + MoveHeadStmts(v, vault, id, Promote) == SaveStmts(r) + MoveHeadStmts(v, vault, id, Promote);
      case DoIngest(i) => OutsideStores(sha, d, r, i.bytes);
      case DoMerge(v, base, incoming, result, id, message) => OutsideStores(sha, d, r, result.bytes);
      case _ =>
    }
  }

  lemma StaysStored(t: Tables, u: Tables, r: Revision)
    requires StoredAs(t, r) && HistoryKept(t, u)
    ensures StoredAs(u, r)
  {
  }

  /** The store when an operation of the run begins. */
  lemma {:induction false} BeginsSound(sha: Digest, device: DeviceId, d: Disk, ops: seq<EngineOp>, m: nat)
    requires SizeFaithful(sha) && Sound(sha, d) && FreshRun(sha, device, d, ops) && m < |ops|
    ensures Sound(sha, DiskAfter(sha, device, d, ops, m)) && MintsFresh(DiskAfter(sha, device, d, ops, m).tables, ops[m])
  {
    hide Sound, MintsFresh, EffectOf, Replay, SizeFaithful;
    CrashAnywhereIsSound(sha, device, d, ops);
    StepsOfFirst(sha, device, d, ops, m);
    var before := RunSteps(sha, device, d, ops[..m]);
    assert RunSteps(sha, device, d, ops)[..|before|] == before;
    FirstAreFresh(sha, device, d, ops, m + 1);
    assert ops[..m + 1][..m] == ops[..m] && ops[..m + 1][m] == ops[m];
  }

  lemma {:induction false} FirstAreFresh(sha: Digest, device: DeviceId, d: Disk, ops: seq<EngineOp>, m: nat)
    requires FreshRun(sha, device, d, ops) && m <= |ops|
    ensures FreshRun(sha, device, d, ops[..m])
  {
    hide MintsFresh, RunSteps, Replay;
    if m < |ops| {
      FirstAreFresh(sha, device, d, ops[..|ops| - 1], m);
      assert ops[..|ops| - 1][..m] == ops[..m];
    } else {
      assert ops[..m] == ops;
    }
  }

  /**
   A revision that an operation of the run completed, imported, recorded, received or merged, is there
   after every later durable step with the row and exactly the parents it was made with.
   */
  lemma {:induction false} CompletedForGood(sha: Digest, device: DeviceId, d: Disk, ops: seq<EngineOp>, m: nat, k: nat)
    requires SizeFaithful(sha) && Sound(sha, d) && FreshRun(sha, device, d, ops) && m < |ops|
    requires AddedBy(sha, device, DiskAfter(sha, device, d, ops, m), ops[m]).Some?
    requires |RunSteps(sha, device, d, ops[..m + 1])| <= k <= |RunSteps(sha, device, d, ops)|
    ensures StoredAs(Replay(sha, d, RunSteps(sha, device, d, ops)[..k]).tables,
      AddedBy(sha, device, DiskAfter(sha, device, d, ops, m), ops[m]).value)
  {
    hide Sound, MintsFresh, EffectOf, Replay, SizeFaithful, AddedBy, StoredAs, HistoryKept, KeysResolve;
    var mid := DiskAfter(sha, device, d, ops, m);
    var r := AddedBy(sha, device, mid, ops[m]).value;
    BeginsSound(sha, device, d, ops, m);
    SoundKeys(sha, mid);
    OperationStores(sha, device, mid, ops[m]);
    var before := RunSteps(sha, device, d, ops[..m]);
    ReplayConcat(sha, d, before, EffectOf(sha, device, mid, ops[m]).steps);
    assert ops[..m + 1][..m] == ops[..m];
    HistoryNeverRewritten(sha, device, d, ops, m + 1, k);
    StaysStored(DiskAfter(sha, device, d, ops, m + 1).tables, Replay(sha, d, RunSteps(sha, device, d, ops)[..k]).tables, r);
  }

  // ---- why the ids must be fresh ----------------------------------------------------

  lemma {:induction false} MergeUnchangedIff(existing: seq<RevisionId>, more: seq<RevisionId>)
    ensures existing <= Merge(existing, more)
    ensures Merge(existing, more) == existing <==> forall p :: p in more ==> p in existing
  {
    if |more| > 0 {
      MergeUnchangedIff(existing, more[..|more| - 1]);
      var last := more[|more| - 1];
      assert more == more[..|more| - 1] + [last];
    }
  }

  lemma SetsOfSeqs(xs: seq<RevisionId>, ys: seq<RevisionId>)
    ensures SeqToSet(xs) <= SeqToSet(ys) <==> forall p :: p in xs ==> p in ys
  {
    assert forall p :: p in SeqToSet(xs) <==> p in xs;
    assert forall p :: p in SeqToSet(ys) <==> p in ys;
  }

  /**
   A save under any id, stored or not, keeps the history exactly if the id is new or every declared
   parent is a parent already: the insert of the row is skipped for a stored id, those of the edges are not.
   */
  lemma SaveKeepsHistoryIff(t: Tables, r: Revision)
    requires KeysResolve(t)
    ensures HistoryKept(t, AfterSave(t, r, 1 + |r.parentIds|))
       <==> (r.id in t.rows ==> SeqToSet(r.parentIds) <= SeqToSet(ParentsOf(t, r.id)))
  {
    hide Merge;
    assert r.parentIds[..|r.parentIds|] == r.parentIds;
    MergeUnchangedIff(ParentsOf(t, r.id), r.parentIds);
    var u := AfterSave(t, r, 1 + |r.parentIds|);
    assert ParentsOf(u, r.id) == if |r.parentIds| == 0 then ParentsOf(t, r.id) else Merge(ParentsOf(t, r.id), r.parentIds);
    assert forall id :: id != r.id ==> ParentsOf(u, id) == ParentsOf(t, id);
    SetsOfSeqs(r.parentIds, ParentsOf(t, r.id));
  }
}
