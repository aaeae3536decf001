/**
 What each operation of the engine leaves in the store, stated from the store's side: which row and
 which parents it gained, where the head is, what the log says, and under which conditions the operation
 does nothing or is refused.
 */
module Operations {
  import opened Basics
  import opened Reachability
  import opened Framing
  import opened Store
  import opened Engine
  import opened EngineRuns
  import opened ImmutableHistory

  /** One revision more, with this row and exactly these parents; the rest of the history as it was. */
  ghost predicate Gained(t: Tables, u: Tables, id: RevisionId, row: Row, parents: set<RevisionId>) {
    && id !in t.rows && u.rows.Keys == t.rows.Keys + {id} && HistoryKept(t, u)
    && u.rows[id] == row && NoDuplicates(ParentsOf(u, id)) && SeqToSet(ParentsOf(u, id)) == parents
  }

  /** The vault's head is now `id`, and the log says where it was before and why it moved; no other vault changed. */
  ghost predicate HeadNow(t: Tables, u: Tables, v: VaultId, before: Vault, id: RevisionId, reason: MoveReason) {
    && u.vaults == t.vaults[v := Vault(before.name, Some(id))]
    && u.headEvents == t.headEvents + [HeadEvent(v, before.head, id, reason)]
  }

  ghost predicate HeadsAsTheyWere(t: Tables, u: Tables) {
    u.vaults == t.vaults && u.headEvents == t.headEvents
  }

  lemma {:induction false} NoStepsTaken(sha: Digest, d: Disk)
    ensures Replay(sha, d, []) == d
  {
  }

  /** A save and the move of the head onto it, in one commit behind the blob. */
  lemma {:induction false} SavedAndMoved(sha: Digest, d: Disk, first: seq<Stmt>, r: Revision, v: VaultId, vault: Vault, bytes: Bytes)
    requires var t := RunStmts(d.tables, first);
      KeysResolve(t) && r.id !in t.rows && t.rows == d.tables.rows && t.parents == d.tables.parents && t.headEvents == d.tables.headEvents
      && t.vaults[v := vault] == d.tables.vaults[v := vault]
    ensures var d' := Replay(sha, d, [PutBlob(bytes), Commit(first + SaveStmts(r) + MoveHeadStmts(v, vault, r.id, Promote))]);
      && Gained(d.tables, d'.tables, r.id, RowOf(r), SeqToSet(r.parentIds))
      && HeadNow(d.tables, d'.tables, v, vault, r.id, Promote) && sha(bytes) in d'.blobs
  {
    hide KeysResolve, Replay, SaveStmts, MoveHeadStmts, AfterSave, RowOf, RunStmts, HistoryKept;
    var move := MoveHeadStmts(v, vault, r.id, Promote);
    TwoSteps(sha, d, PutBlob(bytes), Commit(first + SaveStmts(r) + move));
    RunStmtsConcat(d.tables, first + SaveStmts(r), move);
    RunStmtsConcat(d.tables, first, SaveStmts(r));
    var t := RunStmts(d.tables, first);
    SaveAllTables(t, r);
    SavedWhole(t, r);
    var u := RunStmts(t, SaveStmts(r));
    MoveTables(u, v, vault, r.id, Promote);
    SameRowsKept(d.tables, t, u, RunStmts(u, move));
    MapTwice(d.tables.vaults, v, vault, Vault(vault.name, Some(r.id)));
    MapTwice(t.vaults, v, vault, Vault(vault.name, Some(r.id)));
  }

  lemma SameRowsKept(t: Tables, t': Tables, u: Tables, u': Tables)
    requires HistoryKept(t', u) && t'.rows == t.rows && t'.parents == t.parents && u'.rows == u.rows && u'.parents == u.parents
    ensures HistoryKept(t, u') && forall id :: ParentsOf(u', id) == ParentsOf(u, id)
  {
  }

  /** An import: the blob, a root revision of the new vault, the head on it, and the first entry of its log. */
  lemma {:induction false} ImportMeans(sha: Digest, device: DeviceId, d: Disk, v: VaultId, id: RevisionId, name: string, bytes: Bytes)
    requires Sound(sha, d) && v !in d.tables.vaults && id !in d.tables.rows
    ensures var e := ImportVault(sha, device, v, id, name, bytes);
      var d' := Replay(sha, d, e.steps);
      && e.outcome == Recorded(id)
      && Gained(d.tables, d'.tables, id, Row(v, sha(bytes), |bytes|, Imported, device, Some(name)), {})
      && HeadNow(d.tables, d'.tables, v, Vault(name, None), id, Promote) && sha(bytes) in d'.blobs
  {
    hide Sound, Replay, SaveStmts, MoveHeadStmts, RunStmts, KeysResolve, Gained, HeadNow;
    SoundKeys(sha, d);
    var r := Revision(id, v, sha(bytes), |bytes|, [], Imported, device, Some(name));
    VaultFirst(d.tables, v, Vault(name, None));
    VaultWritten(d.tables, v, Vault(name, None));
    MapTwice(d.tables.vaults, v, Vault(name, None), Vault(name, None));
    SavedAndMoved(sha, d, [UpsertVault(v, Vault(name, None))], r, v, Vault(name, None), bytes);
    OneOrNone(None);
  }

  lemma {:induction false} VaultWritten(t: Tables, v: VaultId, vault: Vault)
    ensures RunStmts(t, [UpsertVault(v, vault)]) == t.(vaults := t.vaults[v := vault])
  {
    SyncEngine.EmptyRun(t);
    RunStmtsAppend(t, [], UpsertVault(v, vault));
    assert [] + [UpsertVault(v, vault)] == [UpsertVault(v, vault)];
  }

  /** A recorded change in the store: a child of the old head, or a root if there was none, and the head moved onto it. */
  ghost predicate RecordedChange(sha: Digest, device: DeviceId, d: Disk, d': Disk, v: VaultId, id: RevisionId, bytes: Bytes)
    requires v in d.tables.vaults
  {
    var head := d.tables.vaults[v].head;
    && Gained(d.tables, d'.tables, id, Row(v, sha(bytes), |bytes|, LocalChange, device, None), if head.Some? then {head.value} else {})
    && HeadNow(d.tables, d'.tables, v, d.tables.vaults[v], id, Promote)
    && sha(bytes) in d'.blobs
    && (head.Some? ==> Reaches(VaultGraph(d'.tables, v), head.value, id))
  }

  /**
   Recording a change: refused for an unknown vault, nothing if the bytes are the head's already, and
   otherwise the new revision is the head, a child of the old one.
   */
  lemma {:induction false} RecordMeans(sha: Digest, device: DeviceId, d: Disk, v: VaultId, id: RevisionId, bytes: Bytes)
    requires Sound(sha, d) && id !in d.tables.rows
    ensures var e := RecordLocalChange(sha, device, d.tables, v, id, bytes);
      var d' := Replay(sha, d, e.steps);
      if v !in d.tables.vaults then e.outcome == Threw && d' == d
      else
        var head := d.tables.vaults[v].head;
        (head.Some? ==> head.value in d.tables.rows)
        && if head.Some? && d.tables.rows[head.value].hash == sha(bytes) then e.outcome == Unchanged(head.value) && d' == d
           else e.outcome == Recorded(id) && RecordedChange(sha, device, d, d', v, id, bytes)
  {
    hide Sound, Replay, SaveStmts, MoveHeadStmts, RunStmts, KeysResolve, Gained, HeadNow, Reaches, VaultGraph;
    NoStepsTaken(sha, d);
    if v in d.tables.vaults {
      var vault := d.tables.vaults[v];
      HeadStored(sha, d, v);
      if !(vault.head.Some? && d.tables.rows[vault.head.value].hash == sha(bytes)) {
        var parents := if vault.head.Some? then [vault.head.value] else [];
        var r := Revision(id, v, sha(bytes), |bytes|, parents, LocalChange, device, None);
        SoundKeys(sha, d);
        SyncEngine.EmptyRun(d.tables);
        SavedAndMoved(sha, d, [], r, v, vault, bytes);
        assert [] + SaveStmts(r) + MoveHeadStmts(v, vault, id, Promote) == SaveStmts(r) + MoveHeadStmts(v, vault, id, Promote);
        OneOrNone(vault.head);
        if vault.head.Some? {
          var d' := Replay(sha, d, [PutBlob(bytes), Commit(SaveStmts(r) + MoveHeadStmts(v, vault, id, Promote))]);
          ChildReaches(d.tables, d'.tables, v, vault.head.value, id, RowOf(r));
        }
      }
    }
  }

  lemma HeadStored(sha: Digest, d: Disk, v: VaultId)
    requires Sound(sha, d) && v in d.tables.vaults
    ensures var head := d.tables.vaults[v].head;
      head.Some? ==> head.value in d.tables.rows && d.tables.rows[head.value].vaultId == v
  {
    hide Closed, Acyclic, KeysResolve, LogsLinked;
  }

  lemma OneOrNone(head: Option<RevisionId>)
    ensures SeqToSet(if head.Some? then [head.value] else []) == if head.Some? then {head.value} else {}
  {
  }

  lemma ChildReaches(t: Tables, u: Tables, v: VaultId, parent: RevisionId, id: RevisionId, row: Row)
    requires Gained(t, u, id, row, {parent}) && row.vaultId == v
    ensures Reaches(VaultGraph(u, v), parent, id)
  {
    assert parent in SeqToSet(ParentsOf(u, id));
    assert Edge(VaultGraph(u, v), id, parent);
    ReachesParent(VaultGraph(u, v), id, parent);
  }

  /** A save outside a transaction, all of its steps taken. */
  lemma {:induction false} SavedOutside(sha: Digest, d: Disk, r: Revision, bytes: Bytes)
    requires KeysResolve(d.tables) && r.id !in d.tables.rows
    ensures var d' := Replay(sha, d, [PutBlob(bytes)] + Autocommit(SaveStmts(r)));
      && Gained(d.tables, d'.tables, r.id, RowOf(r), SeqToSet(r.parentIds)) && HeadsAsTheyWere(d.tables, d'.tables)
      && sha(bytes) in d'.blobs
  {
    hide KeysResolve, Replay, SaveStmts, AfterSave, HistoryKept, RowOf, Autocommit;
    var d1, ss := ApplyDurable(sha, d, PutBlob(bytes)), SaveStmts(r);
    ReplayConcat(sha, d, [PutBlob(bytes)], Autocommit(ss));
    OneStep(sha, d, PutBlob(bytes));
    ReplayAutocommit(sha, d1, ss, |ss|);
    assert Autocommit(ss)[..|ss|] == Autocommit(ss);
    SaveAllTables(d.tables, r);
    assert ss[..|ss|] == ss;
    SavedWhole(d.tables, r);
  }

  /** The first declared parent that is not stored. */
  ghost predicate FirstAbsent(t: Tables, ps: seq<RevisionId>, p: RevisionId) {
    exists i :: 0 <= i < |ps| && ps[i] == p && p !in t.rows && forall k :: 0 <= k < i ==> ps[k] in t.rows
  }

  lemma {:induction false} MissingIsFirst(t: Tables, ps: seq<RevisionId>)
    ensures FirstMissing(t, ps).Some? ==> FirstAbsent(t, ps, FirstMissing(t, ps).value)
  {
    if ps != [] {
      if ps[0] !in t.rows {
        assert FirstAbsent(t, ps, ps[0]);
      } else if FirstMissing(t, ps[1..]).Some? {
        MissingIsFirst(t, ps[1..]);
        var p := FirstMissing(t, ps[1..]).value;
        var i :| 0 <= i < |ps[1..]| && ps[1..][i] == p && p !in t.rows && forall k :: 0 <= k < i ==> ps[1..][k] in t.rows;
        assert ps[i + 1] == p && forall k :: 1 <= k < i + 1 ==> ps[k] == ps[1..][k - 1];
      }
    }
  }

  /**
   Taking in a revision: known ids are left as they are; bytes of another hash, and a parent that is not
   stored, are refused before anything is written; otherwise the revision is stored as its sender
   declared it, and no head moves.
   */
  lemma {:induction false} IngestMeans(sha: Digest, d: Disk, i: ReceivedInput)
    requires Sound(sha, d)
    ensures var e := IngestReceivedRevision(sha, d.tables, i);
      var d' := Replay(sha, d, e.steps);
      if i.revisionId in d.tables.rows then e.outcome == AlreadyPresent(i.revisionId) && d' == d
      else if sha(i.bytes) != i.declaredHash then e.outcome == HashMismatch && d' == d
      else if exists p :: p in i.declaredParentIds && p !in d.tables.rows then
        e.outcome.MissingParent? && FirstAbsent(d.tables, i.declaredParentIds, e.outcome.id) && d' == d
      else if i.vaultId !in d.tables.vaults then e.outcome == Threw && d'.tables == d.tables
      else
        && e.outcome == Stored(i.revisionId)
        && Gained(d.tables, d'.tables, i.revisionId,
             Row(i.vaultId, i.declaredHash, |i.bytes|, Received, i.fromDeviceId, i.message), SeqToSet(i.declaredParentIds))
        && HeadsAsTheyWere(d.tables, d'.tables) && sha(i.bytes) in d'.blobs
  {
    hide Sound, Replay, SaveStmts, Autocommit, Gained, KeysResolve;
    NoStepsTaken(sha, d);
    MissingIsFirst(d.tables, i.declaredParentIds);
    SoundKeys(sha, d);
    OneStep(sha, d, PutBlob(i.bytes));
    if i.revisionId !in d.tables.rows {
      SavedOutside(sha, d, Revision(i.revisionId, i.vaultId, i.declaredHash, |i.bytes|, i.declaredParentIds, Received,
        i.fromDeviceId, i.message), i.bytes);
    }
  }

  /** Every one of the revisions is stored and its bytes are there. */
  ghost predicate InputsReadable(d: Disk, ids: seq<RevisionId>) {
    forall x :: x in ids ==> x in d.tables.rows && d.tables.rows[x].hash in d.blobs
  }

  /**
   Merging: an exception unless all inputs can be read; without credentials, or if the interpreter
   refuses, nothing; otherwise a revision with the base and all incoming ones as parents, once each, and
   no head moves. An empty or repeating list of inputs is refused, with nothing left behind but the blob.
   */
  lemma {:induction false} MergeMeans(sha: Digest, device: DeviceId, d: Disk, v: VaultId, base: RevisionId, incoming: seq<RevisionId>,
      result: MergeResult, id: RevisionId, message: string)
    requires Sound(sha, d) && id !in d.tables.rows
    ensures var e := MergeRevisions(sha, device, d, v, base, incoming, result, id, message);
      var d' := Replay(sha, d, e.steps);
      if !InputsReadable(d, [base] + incoming) then e.outcome == Threw && d' == d
      else if result.CredentialsNeeded? then e.outcome == NeedsCredentials && d' == d
      else if result.MergeRefused? then e.outcome == MergeFailed && d' == d
      else if incoming == [] || !NoDuplicates([base] + incoming) || v !in d.tables.vaults then
        e.outcome == Threw && d'.tables == d.tables
      else
        && e.outcome == Merged(id)
        && Gained(d.tables, d'.tables, id, Row(v, sha(result.bytes), |result.bytes|, MergedOp, device, Some(message)),
             SeqToSet([base] + incoming))
        && HeadsAsTheyWere(d.tables, d'.tables) && sha(result.bytes) in d'.blobs
  {
    hide Sound, Replay, SaveStmts, Autocommit, Gained, KeysResolve, NoDuplicates;
    NoStepsTaken(sha, d);
    SoundKeys(sha, d);
    var inputs := [base] + incoming;
    assert InputsReadable(d, inputs) <==> Readable(d, base) && AllReadable(d, incoming) by {
      assert base in inputs && forall x :: x in inputs <==> x == base || x in incoming;
    }
    if result.MergeSucceeded? {
      OneStep(sha, d, PutBlob(result.bytes));
      SavedOutside(sha, d, Revision(id, v, sha(result.bytes), |result.bytes|, inputs, MergedOp, device, Some(message)), result.bytes);
    }
  }

  /** Moving the head: refused unless the revision is stored and of this vault; otherwise only the head and the log change. */
  lemma {:induction false} MoveMeans(sha: Digest, d: Disk, v: VaultId, id: RevisionId, reason: MoveReason)
    ensures var e := MoveHead(d.tables, v, id, reason);
      var d' := Replay(sha, d, e.steps);
      if v in d.tables.vaults && id in VaultGraph(d.tables, v) then
        && e.outcome == HeadMoved(id) && d'.blobs == d.blobs
        && d'.tables.rows == d.tables.rows && d'.tables.parents == d.tables.parents
        && HeadNow(d.tables, d'.tables, v, d.tables.vaults[v], id, reason)
      else e.outcome == Threw && d' == d
  {
    hide Replay, MoveHeadStmts, ParentsOf;
    NoStepsTaken(sha, d);
    if v in d.tables.vaults && id in VaultGraph(d.tables, v) {
      OneStep(sha, d, Commit(MoveHeadStmts(v, d.tables.vaults[v], id, reason)));
      MoveTables(d.tables, v, d.tables.vaults[v], id, reason);
    }
  }

  /** Adopting: the peer's vault, under its own id and name and with no head; a vault that is known stays as it is. */
  lemma {:induction false} AdoptMeans(sha: Digest, d: Disk, v: VaultId, name: string)
    ensures var e := AdoptVault(d.tables, v, name);
      var d' := Replay(sha, d, e.steps);
      if v in d.tables.vaults then e.outcome == VaultKnown && d' == d
      else e.outcome == VaultAdopted && d' == d.(tables := d.tables.(vaults := d.tables.vaults[v := Vault(name, None)]))
  {
    hide Replay;
    NoStepsTaken(sha, d);
    OneStep(sha, d, Commit([UpsertVault(v, Vault(name, None))]));
    VaultWritten(d.tables, v, Vault(name, None));
  }
}
