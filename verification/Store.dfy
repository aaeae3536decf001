/**
 One device's durable state: a content-addressed blob store and the metadata tables
 (packages/storage-sql/src/sqliteMetadataStore.ts, packages/storage-node/src/blobStore.ts).
 Every change is a durable step, so a crash is a prefix of the step log.
 */
module Store {
  import opened Basics
  import opened Reachability
  import opened Ancestry
  import opened Framing

  datatype Hash = Hash(hex: string)

  datatype DeviceId = DeviceId(text: string)

  /** The digest is a parameter everywhere: only that it is a function matters, and where said, collisions. */
  type Digest = Bytes -> Hash

  datatype Operation = Imported | Received | MergedOp | LocalChange

  datatype Revision = Revision(id: RevisionId, vaultId: VaultId, hash: Hash, sizeBytes: nat,
    parentIds: seq<RevisionId>, operation: Operation, origin: DeviceId, message: Option<string>)

  /** A revisions row: everything but the id, which is the key, and the parents, which are edges. */
  datatype Row = Row(vaultId: VaultId, hash: Hash, sizeBytes: nat, operation: Operation,
    origin: DeviceId, message: Option<string>)

  datatype Vault = Vault(name: string, head: Option<RevisionId>)

  datatype MoveReason = Promote | FastForward | Undo

  datatype HeadEvent = HeadEvent(vaultId: VaultId, previous: Option<RevisionId>, next: RevisionId, reason: MoveReason)

  /** `parents` groups the revision_parents rows by child; the primary key keeps each list free of duplicates. */
  datatype Tables = Tables(vaults: map<VaultId, Vault>, rows: map<RevisionId, Row>,
    parents: map<RevisionId, seq<RevisionId>>, headEvents: seq<HeadEvent>)

  datatype Disk = Disk(blobs: map<Hash, Bytes>, tables: Tables)

  const EMPTY_TABLES := Tables(map[], map[], map[], [])

  function ParentsOf(t: Tables, id: RevisionId): seq<RevisionId> {
    if id in t.parents then t.parents[id] else []
  }

  function BytesOf(disk: Disk, id: RevisionId): Bytes
    requires id in disk.tables.rows && disk.tables.rows[id].hash in disk.blobs
  {
    disk.blobs[disk.tables.rows[id].hash]
  }

  function RowOf(r: Revision): Row {
    Row(r.vaultId, r.hash, r.sizeBytes, r.operation, r.origin, r.message)
  }

  /** The stored history of all vaults. */
  function GraphOf(t: Tables): Graph {
    map id | id in t.rows :: ParentsOf(t, id)
  }

  /** The history of one vault, as `loadGraph` and `historySummary` present it. */
  function VaultGraph(t: Tables, vaultId: VaultId): Graph {
    map id | id in t.rows && t.rows[id].vaultId == vaultId :: ParentsOf(t, id)
  }

  // ---- statements and durable steps --------------------------------------

  datatype Stmt =
    | UpsertVault(vaultId: VaultId, vault: Vault)
    | InsertRow(id: RevisionId, row: Row)
    | InsertParent(child: RevisionId, parent: RevisionId)
    | InsertHeadEvent(event: HeadEvent)

  function AddDistinct(s: seq<RevisionId>, x: RevisionId): seq<RevisionId> {
    if x in s then s else s + [x]
  }

  /** Inserts that meet an existing key do nothing; a vault row is overwritten. */
  function ApplyStmt(t: Tables, s: Stmt): Tables {
    match s
    case UpsertVault(v, vault) => t.(vaults := t.vaults[v := vault])
    case InsertRow(id, row) => if id in t.rows then t else t.(rows := t.rows[id := row])
    case InsertParent(c, p) => t.(parents := t.parents[c := AddDistinct(ParentsOf(t, c), p)])
    case InsertHeadEvent(e) => t.(headEvents := t.headEvents + [e])
  }

  function RunStmts(t: Tables, ss: seq<Stmt>): Tables {
    if |ss| == 0 then t else ApplyStmt(RunStmts(t, ss[..|ss| - 1]), ss[|ss| - 1])
  }

  lemma {:induction false} RunStmtsAppend(t: Tables, ss: seq<Stmt>, s: Stmt)
    ensures RunStmts(t, ss + [s]) == ApplyStmt(RunStmts(t, ss), s)
  {
    assert (ss + [s])[..|ss|] == ss;
  }

  lemma {:induction false} RunStmtsConcat(t: Tables, xs: seq<Stmt>, ys: seq<Stmt>)
    ensures RunStmts(t, xs + ys) == RunStmts(RunStmts(t, xs), ys)
  {
    if ys == [] {
      assert xs + ys == xs;
    } else {
      var n := |ys| - 1;
      assert (xs + ys)[..|xs + ys| - 1] == xs + ys[..n];
      RunStmtsConcat(t, xs, ys[..n]);
    }
  }

  /** What survives a crash grows by one of these at a time. */
  datatype Durable = PutBlob(bytes: Bytes) | Commit(stmts: seq<Stmt>)

  function ApplyDurable(sha: Digest, d: Disk, step: Durable): Disk {
    match step
    case PutBlob(bytes) => if sha(bytes) in d.blobs then d else d.(blobs := d.blobs[sha(bytes) := bytes])
    case Commit(stmts) => d.(tables := RunStmts(d.tables, stmts))
  }

  function Replay(sha: Digest, d: Disk, steps: seq<Durable>): Disk {
    if |steps| == 0 then d
    else ApplyDurable(sha, Replay(sha, d, steps[..|steps| - 1]), steps[|steps| - 1])
  }

  lemma {:induction false} ReplayConcat(sha: Digest, d: Disk, xs: seq<Durable>, ys: seq<Durable>)
    ensures Replay(sha, d, xs + ys) == Replay(sha, Replay(sha, d, xs), ys)
  {
    if ys == [] {
      assert xs + ys == xs;
    } else {
      var n := |ys| - 1;
      assert (xs + ys)[..|xs + ys| - 1] == xs + ys[..n];
      ReplayConcat(sha, d, xs, ys[..n]);
    }
  }

  lemma {:induction false} ReplayAppend(sha: Digest, d: Disk, steps: seq<Durable>, s: Durable)
    ensures Replay(sha, d, steps + [s]) == ApplyDurable(sha, Replay(sha, d, steps), s)
  {
    assert (steps + [s])[..|steps|] == steps;
  }

  // ---- saving a revision ------------------------------------------------

  function SaveStmts(r: Revision): (ss: seq<Stmt>)
    ensures |ss| == 1 + |r.parentIds|
  {
    [InsertRow(r.id, RowOf(r))] + seq(|r.parentIds|, i requires 0 <= i < |r.parentIds| => InsertParent(r.id, r.parentIds[i]))
  }

  /**
   `saveRevision` throws when a parent is absent, and the foreign key when the vault is; a row that is
   there already is not inserted again, so its vault is not looked at.
   */
  predicate CanSave(t: Tables, r: Revision) {
    (forall p :: p in r.parentIds ==> p in t.rows) && (r.id in t.rows || r.vaultId in t.vaults)
  }

  function Merge(existing: seq<RevisionId>, more: seq<RevisionId>): (m: seq<RevisionId>)
    ensures forall x :: x in m <==> x in existing || x in more
    ensures NoDuplicates(existing) ==> NoDuplicates(m)
  {
    if |more| == 0 then existing
    else AddDistinct(Merge(existing, more[..|more| - 1]), more[|more| - 1])
  }

  /** The tables after the first `k` statements of a save, the crash points included. */
  function AfterSave(t: Tables, r: Revision, k: nat): Tables
    requires k <= 1 + |r.parentIds|
  {
    if k == 0 then t
    else t.(rows := if r.id in t.rows then t.rows else t.rows[r.id := RowOf(r)],
            parents := if k == 1 then t.parents
                       else t.parents[r.id := Merge(ParentsOf(t, r.id), r.parentIds[..k - 1])])
  }

  lemma {:induction false} MergeStep(existing: seq<RevisionId>, more: seq<RevisionId>, k: nat)
    requires k < |more|
    ensures Merge(existing, more[..k + 1]) == AddDistinct(Merge(existing, more[..k]), more[k])
    ensures Merge(existing, more[..0]) == existing
  {
    assert more[..k + 1][..k] == more[..k];
  }

  lemma AfterSaveStep(t: Tables, r: Revision, k: nat)
    requires k < 1 + |r.parentIds|
    ensures AfterSave(t, r, k + 1) == ApplyStmt(AfterSave(t, r, k), SaveStmts(r)[k])
    ensures AfterSave(t, r, 0) == t
  {
    hide Merge, AddDistinct, RowOf;
    if k > 0 {
      EdgeStep(t.parents, ParentsOf(t, r.id), r.id, r.parentIds, k - 1);
    }
  }

  /** One edge more on top of the first `k`. */
  lemma {:induction false} EdgeStep(parents: map<RevisionId, seq<RevisionId>>, known: seq<RevisionId>, id: RevisionId, more: seq<RevisionId>, k: nat)
    requires k < |more| && known == (if id in parents then parents[id] else [])
    ensures var before := if k == 0 then parents else parents[id := Merge(known, more[..k])];
      parents[id := Merge(known, more[..k + 1])]
      == before[id := AddDistinct(if id in before then before[id] else [], more[k])]
  {
    MergeStep(known, more, k);
    hide Merge, AddDistinct;
    if k > 0 {
      MapTwice(parents, id, Merge(known, more[..k]), Merge(known, more[..k + 1]));
    }
  }

  lemma MapTwice<K, V>(f: map<K, V>, x: K, v: V, w: V)
    ensures f[x := v][x := w] == f[x := w]
  {
  }

  lemma {:induction false} SavePrefix(t: Tables, r: Revision, k: nat)
    requires k <= 1 + |r.parentIds|
    ensures RunStmts(t, SaveStmts(r)[..k]) == AfterSave(t, r, k)
  {
    if k > 0 {
      SavePrefix(t, r, k - 1);
      AfterSaveStep(t, r, k - 1);
      var ss := SaveStmts(r);
      assert ss[..k] == ss[..k - 1] + [ss[k - 1]];
      RunStmtsAppend(t, ss[..k - 1], ss[k - 1]);
    }
  }

  /** Each statement outside a transaction is its own commit. */
  function Autocommit(ss: seq<Stmt>): (ds: seq<Durable>)
    ensures |ds| == |ss|
  {
    seq(|ss|, i requires 0 <= i < |ss| => Commit([ss[i]]))
  }

  lemma {:induction false} ReplayAutocommit(sha: Digest, d: Disk, ss: seq<Stmt>, k: nat)
    requires k <= |ss|
    ensures Replay(sha, d, Autocommit(ss)[..k]) == d.(tables := RunStmts(d.tables, ss[..k]))
  {
    if k > 0 {
      ReplayAutocommit(sha, d, ss, k - 1);
      assert Autocommit(ss)[..k][..k - 1] == Autocommit(ss)[..k - 1];
      assert ss[..k][..k - 1] == ss[..k - 1];
      var before := RunStmts(d.tables, ss[..k - 1]);
      assert RunStmts(before, [ss[k - 1]]) == ApplyStmt(before, ss[k - 1]) by {
        assert [ss[k - 1]][..0] == [];
      }
    }
  }

  // ---- the stores -------------------------------------------------------

  class BlobStore {
    const sha: Digest
    var files: map<Hash, Bytes>

    constructor (sha: Digest)
      ensures this.sha == sha && files == map[]
    {
      this.sha := sha;
      files := map[];
    }

    /** Temp file, fsync, rename: the blob appears whole or not at all. An existing blob is kept. */
    method Put(bytes: Bytes) returns (hash: Hash)
      modifies this
      ensures hash == sha(bytes)
      ensures files == if hash in old(files) then old(files) else old(files)[hash := bytes]
    {
      hash := sha(bytes);
      if hash in files {
        return;
      }
      files := files[hash := bytes];
    }
  }

  class MetadataStore {
    var vaults: map<VaultId, Vault>
    var rows: map<RevisionId, Row>
    var parents: map<RevisionId, seq<RevisionId>>
    var headEvents: seq<HeadEvent>
    var depth: nat
    /** The rollback journal: the tables as the open transaction found them. */
    var journal: Tables
    /** Durable commits, oldest first, and the statements of the open transaction. */
    ghost var commits: seq<Durable>
    ghost var open: seq<Stmt>

    ghost function Contents(): Tables
      reads this
    {
      Tables(vaults, rows, parents, headEvents)
    }

    ghost predicate Idle()
      reads this
    {
      depth == 0 && open == []
    }

    ghost predicate InTransaction()
      reads this
    {
      depth == 1 && Contents() == RunStmts(journal, open)
    }

    constructor ()
      ensures Idle() && Contents() == EMPTY_TABLES && commits == []
    {
      vaults, rows, parents, headEvents := map[], map[], map[], [];
      depth, journal := 0, EMPTY_TABLES;
      commits, open := [], [];
    }

    method Begin()
      requires Idle()
      modifies `depth, `journal
      ensures InTransaction() && journal == Contents()
    {
      depth := 1;
      journal := Tables(vaults, rows, parents, headEvents);
    }

    method CommitTransaction()
      requires InTransaction()
      modifies `depth, `commits, `open
      ensures Idle() && commits == old(commits) + [Commit(old(open))]
    {
      depth := 0;
      commits := commits + [Commit(open)];
      open := [];
    }

    /** Nothing the transaction did remains. */
    method Rollback()
      requires InTransaction()
      modifies `vaults, `rows, `parents, `headEvents, `depth, `open
      ensures Idle() && Contents() == old(journal)
    {
      vaults, rows, parents, headEvents := journal.vaults, journal.rows, journal.parents, journal.headEvents;
      depth, open := 0, [];
    }

    /** The statements since the given logs: in the open transaction, or each its own commit. */
    ghost predicate Logged(commits0: seq<Durable>, open0: seq<Stmt>, ss: seq<Stmt>)
      reads this
    {
      if depth == 0 then open == open0 && commits == commits0 + Autocommit(ss)
      else open == open0 + ss && commits == commits0
    }

    ghost method Log(commits0: seq<Durable>, open0: seq<Stmt>, ss: seq<Stmt>, s: Stmt)
      requires Logged(commits0, open0, ss)
      modifies `commits, `open
      ensures Logged(commits0, open0, ss + [s])
    {
      assert Autocommit(ss + [s]) == Autocommit(ss) + [Commit([s])];
      if depth == 0 {
        commits := commits + [Commit([s])];
      } else {
        open := open + [s];
      }
    }

    method SaveVault(id: VaultId, vault: Vault)
      modifies `vaults, `commits, `open
      ensures Contents() == ApplyStmt(old(Contents()), UpsertVault(id, vault))
      ensures Logged(old(commits), old(open), [UpsertVault(id, vault)])
    {
      vaults := vaults[id := vault];
      assert Autocommit([]) == [];
      Log(commits, open, [], UpsertVault(id, vault));
    }

    method AppendHeadEvent(e: HeadEvent)
      modifies `headEvents, `commits, `open
      ensures Contents() == ApplyStmt(old(Contents()), InsertHeadEvent(e))
      ensures Logged(old(commits), old(open), [InsertHeadEvent(e)])
    {
      headEvents := headEvents + [e];
      assert Autocommit([]) == [];
      Log(commits, open, [], InsertHeadEvent(e));
    }

    method InsertRevisionRow(id: RevisionId, row: Row)
      modifies `rows, `commits, `open
      ensures Contents() == ApplyStmt(old(Contents()), InsertRow(id, row))
      ensures Logged(old(commits), old(open), [InsertRow(id, row)])
    {
      if id !in rows {
        rows := rows[id := row];
      }
      assert Autocommit([]) == [];
      Log(commits, open, [], InsertRow(id, row));
    }

    method InsertParentEdge(child: RevisionId, parent: RevisionId,
        ghost commits0: seq<Durable>, ghost open0: seq<Stmt>, ghost ss: seq<Stmt>)
      requires Logged(commits0, open0, ss)
      modifies `parents, `commits, `open
      ensures Contents() == ApplyStmt(old(Contents()), InsertParent(child, parent))
      ensures Logged(commits0, open0, ss + [InsertParent(child, parent)])
    {
      var known := if child in parents then parents[child] else [];
      parents := parents[child := AddDistinct(known, parent)];
      Log(commits0, open0, ss, InsertParent(child, parent));
    }

    /**
     Refuses, changing nothing, when a parent or the vault is absent. Otherwise an existing row is
     kept, but the edges are inserted all the same.
     */
    method SaveRevision(r: Revision) returns (ok: bool)
      modifies `rows, `parents, `commits, `open
      ensures ok <==> CanSave(old(Contents()), r)
      ensures ok ==> Contents() == AfterSave(old(Contents()), r, 1 + |r.parentIds|)
      ensures ok ==> Logged(old(commits), old(open), SaveStmts(r))
      ensures !ok ==> Contents() == old(Contents()) && open == old(open) && commits == old(commits)
    {
      hide AfterSave, ApplyStmt, Autocommit, RowOf;
      for i := 0 to |r.parentIds|
        invariant forall k :: 0 <= k < i ==> r.parentIds[k] in rows
      {
        if r.parentIds[i] !in rows {
          return false;
        }
      }
      if r.id !in rows && r.vaultId !in vaults {
        return false;
      }
      ghost var before, ss := Contents(), SaveStmts(r);
      InsertRevisionRow(r.id, RowOf(r));
      AfterSaveStep(before, r, 0);
      assert ss[..1] == [InsertRow(r.id, RowOf(r))];
      for i := 0 to |r.parentIds|
        invariant Contents() == AfterSave(before, r, i + 1)
        invariant Logged(old(commits), old(open), ss[..i + 1])
      {
        AfterSaveStep(before, r, i + 1);
        assert ss[..i + 2] == ss[..i + 1] + [InsertParent(r.id, r.parentIds[i])];
        InsertParentEdge(r.id, r.parentIds[i], old(commits), old(open), ss[..i + 1]);
      }
      assert ss[..1 + |r.parentIds|] == ss;
      return true;
    }

    /** Every ancestor id by fixpoint over the stored edges, as the recursive query computes it. */
    method AncestorIdsOf(id: RevisionId) returns (ids: seq<RevisionId>)
      requires parents.Keys <= rows.Keys
      ensures NoDuplicates(ids)
      ensures forall x :: x in ids <==> Reaches(GraphOf(Contents()), x, id)
    {
      hide Universe, SearchSound, Reaches;
      ghost var g := GraphOf(Contents());
      SoundStart(g, id);
      ids := [id];
      ReachesSelf(g, id);
      var next := 0;
      while next < |ids|
        invariant 0 < |ids| && next <= |ids| && ids[0] == id && NoDuplicates(ids)
        invariant SearchSound(g, id, ids)
        invariant forall c, p :: c in ids[..next] && Edge(g, c, p) ==> p in ids
        invariant forall x :: x in ids ==> x in Universe(g, id)
        decreases |Universe(g, id)| - |SeqToSet(ids)|, |ids| - next
      {
        var row := ids[next];
        ghost var before := ids;
        var edges := if row in parents then parents[row] else [];
        for i := 0 to |edges|
          invariant before <= ids && NoDuplicates(ids) && SearchSound(g, id, ids)
          invariant forall x :: x in ids ==> x in Universe(g, id)
          invariant forall p :: p in edges[..i] ==> p in ids
        {
          if edges[i] !in ids {
            assert Edge(g, row, edges[i]);
            SoundGrows(g, id, ids, row, edges[i]);
            ids := ids + [edges[i]];
          }
        }
        next := next + 1;
        GrowthIsProgress(before, ids, Universe(g, id));
        assert ids[..next] == before[..next - 1] + [row];
        assert edges[..|edges|] == edges;
      }
      assert ids[..|ids|] == ids;
      SearchComplete(g, id, ids);
    }

    /** The rows of one vault with their edges, grouped by revision. */
    method LoadGraph(vaultId: VaultId) returns (g: Graph)
      ensures g == VaultGraph(Contents(), vaultId)
    {
      g := map[];
      var pending := rows.Keys;
      while pending != {}
        invariant pending <= rows.Keys
        invariant g == map id | id in rows && id !in pending && rows[id].vaultId == vaultId :: ParentsOf(Contents(), id)
        decreases pending
      {
        var id :| id in pending;
        pending := pending - {id};
        if rows[id].vaultId == vaultId {
          g := g[id := if id in parents then parents[id] else []];
        }
      }
    }
  }

  lemma SoundStart(g: Graph, id: RevisionId)
    ensures SearchSound(g, id, [id])
  {
    ReachesSelf(g, id);
  }

  lemma SoundGrows(g: Graph, id: RevisionId, ids: seq<RevisionId>, row: RevisionId, parent: RevisionId)
    requires SearchSound(g, id, ids) && row in ids && Edge(g, row, parent)
    ensures SearchSound(g, id, ids + [parent])
  {
    ReachesParent(g, row, parent);
    ReachesTransitive(g, parent, row, id);
  }

  /** A sound search that has followed every edge has found every ancestor. */
  lemma SearchComplete(g: Graph, id: RevisionId, ids: seq<RevisionId>)
    requires SearchSound(g, id, ids) && id in ids
    requires forall c, p :: c in ids && Edge(g, c, p) ==> p in ids
    ensures forall x :: x in ids <==> Reaches(g, x, id)
  {
    forall x | Reaches(g, x, id)
      ensures x in ids
    {
      ClosedSetHoldsAncestors(g, SeqToSet(ids), x, id);
    }
  }

  lemma GrowthIsProgress(before: seq<RevisionId>, after: seq<RevisionId>, universe: set<RevisionId>)
    requires before <= after && NoDuplicates(after) && forall x :: x in after ==> x in universe
    ensures |SeqToSet(before)| <= |SeqToSet(after)| <= |universe|
    ensures |before| < |after| ==> |SeqToSet(before)| < |SeqToSet(after)|
  {
    var b, a := SeqToSet(before), SeqToSet(after);
    assert b <= a && a <= universe;
    SubsetSize(b, a);
    SubsetSize(a, universe);
    if |before| < |after| {
      var x := after[|before|];
      assert x in a && x !in b;
      SubsetSize(b, a - {x});
    }
  }

  lemma SubsetSize<T>(a: set<T>, b: set<T>)
    requires a <= b
    ensures |a| <= |b|
  {
    assert |b - a| == |b| - |a|;
  }

  /** The database query and the in-memory search agree once the ancestors all belong to the vault. */
  lemma QueryAgreesWithSearch(t: Tables, vaultId: VaultId, x: RevisionId, id: RevisionId)
    requires forall c :: c in t.rows && Reaches(GraphOf(t), c, id) ==> t.rows[c].vaultId == vaultId
    ensures Reaches(GraphOf(t), x, id) <==> Reaches(VaultGraph(t, vaultId), x, id)
  {
    var g, h := GraphOf(t), VaultGraph(t, vaultId);
    if Reaches(h, x, id) {
      ReachesMonotone(h, g, x, id);
    }
    if Reaches(g, x, id) {
      ReachesTransfers(g, h, x, id);
    }
  }
}
