/**
 What the services make of a session (packages/services/src/vaultServices.ts): a device that is behind
 fast-forwards, a fork moves nothing until someone combines. Related heads meet after one session;
 forked heads meet after one side combines and one more session.
 */
module HeadConvergence {
  import opened Basics
  import opened Reachability
  import opened RemoteHistory
  import opened Divergence
  import opened Framing
  import opened Store
  import opened Engine
  import opened EngineRuns
  import opened Operations
  import opened Session
  import opened JointSession
  import opened JointSafety
  import opened JointIngest
  import opened JointRuns
  import opened SessionOutcome

  // ---- using the verdict -----------------------------------------------------------

  /** Only a device that is behind moves its head, and only onto the peer's. */
  function VerdictEffect(t: Tables, v: VaultId, remoteHead: Option<RevisionId>, d: Verdict): Effect {
    if remoteHead.Some? && d.RemoteAhead? then MoveHead(t, v, remoteHead.value, FastForward) else Effect([], Unchanged(RevisionId("")))
  }

  function AfterVerdict(sha: Digest, disk: Disk, v: VaultId, remoteHead: Option<RevisionId>, d: Verdict): Disk {
    Replay(sha, disk, VerdictEffect(disk.tables, v, remoteHead, d).steps)
  }

  /** Merges the current version with the other one and, if that worked, makes the result current. */
  function Combined(sha: Digest, device: DeviceId, disk: Disk, v: VaultId, other: RevisionId, result: MergeResult, id: RevisionId,
      message: string): (Disk, Outcome)
  {
    var head := HeadOf(disk.tables, v);
    if head.None? then (disk, MergeFailed)
    else
      var e := MergeRevisions(sha, device, disk, v, head.value, [other], result, id, message);
      var merged := Replay(sha, disk, e.steps);
      if !e.outcome.Merged? then (merged, e.outcome)
      else (Replay(sha, merged, MoveHead(merged.tables, v, id, Promote).steps), e.outcome)
  }

  class VaultServices {
    const engine: SyncEngine

    constructor (engine: SyncEngine)
      ensures this.engine == engine
    {
      this.engine := engine;
    }

    /** What follows a completed session. */
    method UseVerdict(v: VaultId, remoteHead: Option<RevisionId>, d: Verdict)
      requires engine.Valid()
      modifies engine.metadata, engine`steps
      ensures engine.Valid() && engine.State() == AfterVerdict(engine.blobs.sha, old(engine.State()), v, remoteHead, d)
    {
      if remoteHead.Some? && d.RemoteAhead? {
        var _ := engine.Advance(v, remoteHead.value, FastForward);
      }
    }

    method CombineAndUse(v: VaultId, other: RevisionId, result: MergeResult, id: RevisionId, message: string)
      returns (outcome: Outcome)
      requires engine.Valid()
      modifies engine.metadata, engine.blobs, engine`steps
      ensures engine.Valid()
      ensures (engine.State(), outcome)
           == Combined(engine.blobs.sha, engine.deviceId, old(engine.State()), v, other, result, id, message)
    {
      var head := if v in engine.metadata.vaults then engine.metadata.vaults[v].head else None;
      if head.None? {
        return MergeFailed;
      }
      outcome := engine.MergeInto(v, head.value, [other], result, id, message);
      if outcome.Merged? {
        var _ := engine.Advance(v, id, Promote);
      }
    }
  }

  /**
   Using a verdict: a device that is behind moves its head onto the peer's and logs a fast-forward, if it
   holds that revision in the vault; in every other case nothing happens.
   */
  lemma UseVerdictMeans(sha: Digest, disk: Disk, v: VaultId, remoteHead: Option<RevisionId>, d: Verdict)
    ensures var disk' := AfterVerdict(sha, disk, v, remoteHead, d);
      if d.RemoteAhead? && remoteHead.Some? && v in disk.tables.vaults && remoteHead.value in VaultGraph(disk.tables, v) then
        && HeadNow(disk.tables, disk'.tables, v, disk.tables.vaults[v], remoteHead.value, FastForward)
        && disk'.blobs == disk.blobs && disk'.tables.rows == disk.tables.rows && disk'.tables.parents == disk.tables.parents
      else disk' == disk
  {
    hide Replay, MoveHead, VaultGraph, HeadNow;
    NoStepsTaken(sha, disk);
    if remoteHead.Some? {
      MoveMeans(sha, disk, v, remoteHead.value, FastForward);
    }
  }

  /**
   Combining: nothing without a head; otherwise the merge of the head with the other version, on which the
   head is put as a promotion exactly if the merge went through.
   */
  lemma {:induction false} CombineMeans(sha: Digest, device: DeviceId, disk: Disk, v: VaultId, other: RevisionId, result: MergeResult,
      id: RevisionId, message: string)
    requires Sound(sha, disk) && id !in disk.tables.rows
    ensures var (disk', outcome) := Combined(sha, device, disk, v, other, result, id, message);
      var head := HeadOf(disk.tables, v);
      if head.None? then disk' == disk && outcome == MergeFailed
      else if !InputsReadable(disk, [head.value, other]) then disk' == disk && outcome == Threw
      else if result.CredentialsNeeded? then disk' == disk && outcome == NeedsCredentials
      else if result.MergeRefused? then disk' == disk && outcome == MergeFailed
      else if other == head.value then disk'.tables == disk.tables && outcome == Threw
      else
        && outcome == Merged(id)
        && Gained(disk.tables, disk'.tables, id, Row(v, sha(result.bytes), |result.bytes|, MergedOp, device, Some(message)),
             {head.value, other})
        && HeadNow(disk.tables, disk'.tables, v, disk.tables.vaults[v], id, Promote) && sha(result.bytes) in disk'.blobs
  {
    hide Replay, MoveHead, MergeRevisions, Sound, Gained, InputsReadable;
    var head := HeadOf(disk.tables, v);
    if head.Some? {
      MergeMeans(sha, device, disk, v, head.value, [other], result, id, message);
      PairFacts(head.value, other);
      var e := MergeRevisions(sha, device, disk, v, head.value, [other], result, id, message);
      if e.outcome.Merged? {
        var merged := Replay(sha, disk, e.steps);
        GainedIsHeld(disk.tables, merged.tables, id, Row(v, sha(result.bytes), |result.bytes|, MergedOp, device, Some(message)),
          {head.value, other}, v);
        MoveMeans(sha, merged, v, id, Promote);
        GainedStays(disk.tables, merged.tables, Replay(sha, merged, MoveHead(merged.tables, v, id, Promote).steps).tables, id,
          Row(v, sha(result.bytes), |result.bytes|, MergedOp, device, Some(message)), {head.value, other});
      }
    }
  }

  lemma PairFacts(x: RevisionId, y: RevisionId)
    ensures [x] + [y] == [x, y] && SeqToSet([x] + [y]) == {x, y}
    ensures NoDuplicates([x] + [y]) <==> x != y
  {
    var s := [x] + [y];
    assert s[0] == x && s[1] == y;
  }

  lemma GainedIsHeld(t: Tables, u: Tables, id: RevisionId, row: Row, parents: set<RevisionId>, v: VaultId)
    requires Gained(t, u, id, row, parents) && row.vaultId == v
    ensures id in VaultGraph(u, v)
  {
  }

  lemma GainedStays(t: Tables, u: Tables, u': Tables, id: RevisionId, row: Row, parents: set<RevisionId>)
    requires Gained(t, u, id, row, parents) && u'.rows == u.rows && u'.parents == u.parents
    ensures Gained(t, u', id, row, parents)
  {
  }

  // ---- related heads ---------------------------------------------------------------

  /** Moving the head changes the head and the log, and nothing else. */
  lemma {:induction false} HeadMovedFacts(sha: Digest, d: Disk, v: VaultId, id: RevisionId, reason: MoveReason)
    requires Sound(sha, d) && v in d.tables.vaults && id in VaultGraph(d.tables, v)
    ensures var d' := Replay(sha, d, MoveHead(d.tables, v, id, reason).steps);
      && Sound(sha, d') && d'.blobs == d.blobs && d'.tables.rows == d.tables.rows && d'.tables.parents == d.tables.parents
      && HeadOf(d'.tables, v) == Some(id) && d'.tables.vaults.Keys == d.tables.vaults.Keys
  {
    hide Sound, MoveHeadStmts;
    var ss := MoveHeadStmts(v, d.tables.vaults[v], id, reason);
    OneStep(sha, d, Commit(ss));
    MoveTables(d.tables, v, d.tables.vaults[v], id, reason);
    MoveKeeps(sha, d, v, id, reason);
  }

  /** The stored history, whatever the heads are. */
  ghost predicate SameHistory(d: Disk, d': Disk) {
    d'.blobs == d.blobs && d'.tables.rows == d.tables.rows && d'.tables.parents == d.tables.parents
    && d'.tables.vaults.Keys == d.tables.vaults.Keys
  }

  lemma SameHistoryFacts(d: Disk, d': Disk, v: VaultId)
    requires SameHistory(d, d')
    ensures VaultGraph(d'.tables, v) == VaultGraph(d.tables, v)
    ensures VaultClosed(d.tables, v) <==> VaultClosed(d'.tables, v)
    ensures forall t: Tables :: RowsAgree(d.tables, t) ==> RowsAgree(d'.tables, t)
    ensures forall t: Tables :: RowsAgree(t, d.tables) ==> RowsAgree(t, d'.tables)
  {
    assert forall id :: ParentsOf(d'.tables, id) == ParentsOf(d.tables, id);
  }

  lemma AdvertisedHeadHeld(st: Setting, w: World)
    requires Inv(st, w) && BothFinished(w) && HeadOf(st.b.tables, st.v).Some?
    ensures HeadOf(st.b.tables, st.v).value in VaultGraph(w.a.disk.tables, st.v) && st.v in w.a.disk.tables.vaults
  {
    hide Inv, VaultGraph, WantFacts;
    HalfDelivered(st, w);
    ReachesSelf(VaultGraph(st.b.tables, st.v), HeadOf(st.b.tables, st.v).value);
  }

  /** In A's own history, after the session: whatever precedes B's head in the joined history precedes it here. */
  lemma AncestryIsLocal(st: Setting, w: World, id: RevisionId)
    requires Inv(st, w) && BothFinished(w) && HeadOf(st.b.tables, st.v).Some?
    requires Reaches(UnionGraphs(VaultGraph(w.a.disk.tables, st.v), VaultGraph(st.b.tables, st.v)), id, HeadOf(st.b.tables, st.v).value)
    ensures Reaches(VaultGraph(w.a.disk.tables, st.v), id, HeadOf(st.b.tables, st.v).value)
  {
    hide Inv, VaultGraph, HeadOf, Reaches, Sound, VaultClosed, RowsAgree, Closed, Acyclic, Agree;
    AdvertisedHeadHeld(st, w);
    HalfSafe(st, w);
    GoodPeer(st);
    VaultGraphsJoin(st.sha, w.a.disk, st.b, st.v);
    LocalAncestryIsLocal(VaultGraph(w.a.disk.tables, st.v), VaultGraph(st.b.tables, st.v), id, HeadOf(st.b.tables, st.v).value);
  }

  lemma GoodPeer(st: Setting)
    requires GoodSetting(st)
    ensures Sound(st.sha, st.b) && VaultClosed(st.b.tables, st.v)
  {
    hide Sound, VaultClosed, RowsAgree, SizeFaithful;
  }

  /** A's disk once its services have used the verdict. */
  ghost function UsedByA(st: Setting, w: World, d: Verdict): Disk {
    AfterVerdict(st.sha, w.a.disk, st.v, w.a.remoteHead, d)
  }

  /** What one device's use of its verdict comes to. */
  lemma UseVerdictFacts(st: Setting, w: World, d: Verdict)
    requires Inv(st, w) && BothFinished(w) && AClassified(st, w, d)
    ensures var a', mine, theirs := UsedByA(st, w, d), HeadOf(st.a.tables, st.v), HeadOf(st.b.tables, st.v);
      && Sound(st.sha, a') && SameHistory(w.a.disk, a')
      && HeadOf(a'.tables, st.v) == (if d.RemoteAhead? then theirs else mine)
      && (d.RemoteAhead? ==> theirs.Some?)
      && (mine.Some? ==> HeadOf(a'.tables, st.v).Some? && Reaches(VaultGraph(a'.tables, st.v), mine.value, HeadOf(a'.tables, st.v).value))
  {
    hide Inv, VaultGraph, Sound, WantFacts, HoldsHistoryOf, HistoryKept, RowsAgree, VaultClosed, MoveHead, Reaches, GoodSetting;
    HalfDelivered(st, w);
    HalfSafe(st, w);
    var mine, theirs := HeadOf(st.a.tables, st.v), HeadOf(st.b.tables, st.v);
    if d.RemoteAhead? {
      assert theirs.Some?;
      AdvertisedHeadHeld(st, w);
      HeadMovedFacts(st.sha, w.a.disk, st.v, theirs.value, FastForward);
      SameHistoryFacts(w.a.disk, UsedByA(st, w, d), st.v);
      if mine.Some? {
        AncestryIsLocal(st, w, mine.value);
      }
    } else if mine.Some? {
      ReachesSelf(VaultGraph(w.a.disk.tables, st.v), mine.value);
    }
  }

  ghost predicate Forked(d: Verdict) {
    d.Diverged? || d.Unrelated?
  }

  /** The two verdicts of a session that finished. */
  ghost predicate Concluded(st: Setting, w: World, dA: Verdict, dB: Verdict) {
    BothFinished(w) && AClassified(st, w, dA) && AClassified(SwappedSetting(st), Swapped(w), dB)
  }

  /** The disks after both services used their verdicts. */
  ghost function Settled(st: Setting, w: World, dA: Verdict, dB: Verdict): (Disk, Disk) {
    (UsedByA(st, w, dA), UsedByA(SwappedSetting(st), Swapped(w), dB))
  }

  lemma SettledFacts(st: Setting, w: World, dA: Verdict, dB: Verdict)
    requires Inv(st, w) && Concluded(st, w, dA, dB)
    ensures var (a', b') := Settled(st, w, dA, dB);
      && Sound(st.sha, a') && Sound(st.sha, b') && SameHistory(w.a.disk, a') && SameHistory(w.b.disk, b')
      && HeadOf(a'.tables, st.v) == (if dA.RemoteAhead? then HeadOf(st.b.tables, st.v) else HeadOf(st.a.tables, st.v))
      && HeadOf(b'.tables, st.v) == (if dB.RemoteAhead? then HeadOf(st.a.tables, st.v) else HeadOf(st.b.tables, st.v))
      && (HeadOf(a'.tables, st.v) == HeadOf(b'.tables, st.v) <==> !Forked(dA))
    ensures Mirrored(dA, dB)
  {
    hide Inv, Sound, SameHistory, UsedByA, VaultGraph, Reaches;
    UseVerdictFacts(st, w, dA);
    InvSwaps(st, w);
    UseVerdictFacts(SwappedSetting(st), Swapped(w), dB);
    VerdictsMirror(st, w, dA, dB);
    RemoteHeads(st, w);
    if Forked(dA) {
      ForkedHeadsDiffer(st, w, dA);
    }
    EqualHeadsEqual(st, w, dA);
  }

  lemma RemoteHeads(st: Setting, w: World)
    requires Inv(st, w) && BothFinished(w)
    ensures w.a.remoteHead == HeadOf(st.b.tables, st.v) && HeadOf(w.a.disk.tables, st.v) == HeadOf(st.a.tables, st.v)
  {
    hide Inv, WantFacts, HoldsHistoryOf;
    HalfDelivered(st, w);
  }

  lemma ForkedHeadsDiffer(st: Setting, w: World, d: Verdict)
    requires Inv(st, w) && BothFinished(w) && AClassified(st, w, d) && Forked(d)
    ensures HeadOf(st.a.tables, st.v) != HeadOf(st.b.tables, st.v)
    ensures HeadOf(st.a.tables, st.v).Some? && HeadOf(st.b.tables, st.v).Some?
  {
    hide Inv, VaultGraph, Reaches, HeadOf;
    RemoteHeads(st, w);
    var g := UnionGraphs(VaultGraph(w.a.disk.tables, st.v), w.a.remoteGraph);
    if HeadOf(st.a.tables, st.v).Some? {
      ReachesSelf(g, HeadOf(st.a.tables, st.v).value);
      assert d.Unrelated? && HeadOf(st.b.tables, st.v) == HeadOf(st.a.tables, st.v) ==>
        CommonAncestor(g, HeadOf(st.a.tables, st.v).value, HeadOf(st.a.tables, st.v).value, HeadOf(st.b.tables, st.v).value);
    }
  }

  lemma EqualHeadsEqual(st: Setting, w: World, d: Verdict)
    requires Inv(st, w) && BothFinished(w) && AClassified(st, w, d)
    ensures d.Equal? ==> HeadOf(st.a.tables, st.v) == HeadOf(st.b.tables, st.v)
  {
    hide Inv, VaultGraph, Reaches, HeadOf;
    RemoteHeads(st, w);
  }

  /**
   A finished session with no edit in between, and both services using their verdicts: the heads are
   equal exactly unless the two had forked; each old head is an ancestor of the new one on its own
   device; and the pair of stores is again what a session may start from.
   */
  lemma RelatedHeadsConverge(st: Setting, ws: seq<World>, acts: seq<Act>, dA: Verdict, dB: Verdict)
    requires GoodSetting(st) && IsRun(st, ws, acts) && Concluded(st, ws[|acts|], dA, dB)
    ensures var (a', b') := Settled(st, ws[|acts|], dA, dB);
      && (HeadOf(a'.tables, st.v) == HeadOf(b'.tables, st.v) <==> !Forked(dA))
      && GrewFrom(st.a.tables, a'.tables, st.v) && GrewFrom(st.b.tables, b'.tables, st.v)
      && (Forked(dA) ==> (a', b') == (ws[|acts|].a.disk, ws[|acts|].b.disk))
      && GoodSetting(st.(a := a', b := b'))
    ensures Mirrored(dA, dB)
  {
    hide Initial, Step, Inv, GoodSetting, Settled, GrewFrom, Concluded;
    RunInv(st, ws, acts, |acts|);
    SettledFacts(st, ws[|acts|], dA, dB);
    SettledGrew(st, ws[|acts|], dA, dB);
    SettledIsGood(st, ws[|acts|], dA, dB);
    if Forked(dA) {
      ForkMovesNothing(st, ws[|acts|], dA, dB);
    }
  }

  /** The head is where it was or further on: the old one is an ancestor of the new one in the new history. */
  ghost predicate GrewFrom(before: Tables, after: Tables, v: VaultId) {
    HeadOf(before, v).Some? ==>
      HeadOf(after, v).Some? && Reaches(VaultGraph(after, v), HeadOf(before, v).value, HeadOf(after, v).value)
  }

  lemma SettledGrew(st: Setting, w: World, dA: Verdict, dB: Verdict)
    requires Inv(st, w) && Concluded(st, w, dA, dB)
    ensures var (a', b') := Settled(st, w, dA, dB);
      GrewFrom(st.a.tables, a'.tables, st.v) && GrewFrom(st.b.tables, b'.tables, st.v)
  {
    hide Inv, Sound, SameHistory, UsedByA, VaultGraph, Reaches;
    UseVerdictFacts(st, w, dA);
    InvSwaps(st, w);
    UseVerdictFacts(SwappedSetting(st), Swapped(w), dB);
  }

  lemma ForkMovesNothing(st: Setting, w: World, dA: Verdict, dB: Verdict)
    requires Concluded(st, w, dA, dB) && Forked(dA) && Mirrored(dA, dB)
    ensures Settled(st, w, dA, dB) == (w.a.disk, w.b.disk)
  {
    hide AClassified;
  }

  lemma SettledIsGood(st: Setting, w: World, dA: Verdict, dB: Verdict)
    requires Inv(st, w) && Concluded(st, w, dA, dB)
    ensures var (a', b') := Settled(st, w, dA, dB); GoodSetting(st.(a := a', b := b'))
  {
    hide Inv, Sound, UsedByA, VaultGraph, Reaches, VaultClosed, RowsAgree, SizeFaithful, HeadOf, HeadsUnmoved, HistoryKept;
    var (a', b') := Settled(st, w, dA, dB);
    SettledFacts(st, w, dA, dB);
    InvSafe(st, w);
    SettingFacts(st, w);
    SameHistoryFacts(w.a.disk, a', st.v);
    SameHistoryFacts(w.b.disk, b', st.v);
    assert RowsAgree(a'.tables, w.b.disk.tables);
  }

  lemma SettingFacts(st: Setting, w: World)
    requires Inv(st, w) && BothFinished(w)
    ensures st.chunkBytes > 0 && SizeFaithful(st.sha) && st.v != EMPTY_VAULT_ID && st.v in w.a.disk.tables.vaults
  {
    hide Inv, Sound, VaultClosed, RowsAgree, SizeFaithful, WantFacts, HoldsHistoryOf;
    HalfDelivered(st, w);
    HalfSafe(st, w);
  }

  // ---- forked heads ----------------------------------------------------------------

  /** The store after a successful combination of its head with another revision. */
  ghost predicate IsCombination(d: Disk, d': Disk, v: VaultId, other: RevisionId, id: RevisionId) {
    && HeadOf(d.tables, v).Some? && id !in d.tables.rows
    && HistoryKept(d.tables, d'.tables) && d'.tables.rows.Keys == d.tables.rows.Keys + {id}
    && d'.tables.rows[id].vaultId == v && ParentsOf(d'.tables, id) == [HeadOf(d.tables, v).value, other]
    && HeadOf(d'.tables, v) == Some(id)
  }

  lemma CombineSucceeds(sha: Digest, device: DeviceId, d: Disk, v: VaultId, other: RevisionId, bytes: Bytes, id: RevisionId,
      message: string)
    requires SizeFaithful(sha) && Sound(sha, d) && id !in d.tables.rows && HeadOf(d.tables, v).Some?
    requires other in VaultGraph(d.tables, v) && other != HeadOf(d.tables, v).value
    ensures var (d', outcome) := Combined(sha, device, d, v, other, MergeSucceeded(bytes), id, message);
      outcome == Merged(id) && Sound(sha, d') && IsCombination(d, d', v, other, id)
  {
    hide Sound, MoveHead, SaveStmts, Replay, AfterSave, KeysResolve, MergeRevisions, HistoryKept, ParentsOf;
    var base := HeadOf(d.tables, v).value;
    var e := MergeRevisions(sha, device, d, v, base, [other], MergeSucceeded(bytes), id, message);
    var r := MergedRevision(id, v, sha(bytes), |bytes|, base, [other], device, message);
    SoundHeads(sha, d, v);
    MergeEffect(sha, device, d, v, base, other, bytes, id, message);
    var merged := Replay(sha, d, e.steps);
    MergeThroughout(sha, device, d, v, base, [other], MergeSucceeded(bytes), id, message);
    assert e.steps[..|e.steps|] == e.steps;
    StoredOutside(sha, d, r, bytes);
    SoundKeys(sha, d);
    MergedTables(d.tables, r);
    HeadMovedFacts(sha, merged, v, id, Promote);
    var d' := Combined(sha, device, d, v, other, MergeSucceeded(bytes), id, message).0;
    CombinationKept(d.tables, merged.tables, d'.tables, id, RowOf(r), r.parentIds);
  }

  lemma MergeEffect(sha: Digest, device: DeviceId, d: Disk, v: VaultId, base: RevisionId, other: RevisionId, bytes: Bytes,
      id: RevisionId, message: string)
    requires Readable(d, base) && Readable(d, other) && base != other && v in d.tables.vaults
    ensures MergeRevisions(sha, device, d, v, base, [other], MergeSucceeded(bytes), id, message)
         == Effect([PutBlob(bytes)] + Autocommit(SaveStmts(MergedRevision(id, v, sha(bytes), |bytes|, base, [other], device, message))),
                   Merged(id))
    ensures MergedRevision(id, v, sha(bytes), |bytes|, base, [other], device, message).parentIds == [base, other]
  {
    hide SaveStmts, Autocommit;
    assert [base] + [other] == [base, other];
  }

  lemma SoundHeads(sha: Digest, d: Disk, v: VaultId)
    requires Sound(sha, d) && HeadOf(d.tables, v).Some?
    ensures v in d.tables.vaults && HeadOf(d.tables, v).value in d.tables.rows
    ensures forall id :: id in d.tables.rows ==> Readable(d, id)
  {
    hide Closed, Acyclic, BlobsGenuine, KeysResolve, LogsLinked;
  }

  lemma {:induction false} StoredOutside(sha: Digest, d: Disk, r: Revision, bytes: Bytes)
    ensures Replay(sha, d, [PutBlob(bytes)] + Autocommit(SaveStmts(r))).tables == AfterSave(d.tables, r, 1 + |r.parentIds|)
  {
    hide AfterSave, Replay, Autocommit, SaveStmts;
    var ss := SaveStmts(r);
    ReplayConcat(sha, d, [PutBlob(bytes)], Autocommit(ss));
    OneStep(sha, d, PutBlob(bytes));
    assert Autocommit(ss)[..|ss|] == Autocommit(ss) && ss[..|ss|] == ss;
    ReplayAutocommit(sha, ApplyDurable(sha, d, PutBlob(bytes)), ss, |ss|);
    SavePrefix(d.tables, r, |ss|);
  }

  lemma MergedTables(t: Tables, r: Revision)
    requires |r.parentIds| == 2 && r.parentIds[0] != r.parentIds[1] && r.id !in t.rows && KeysResolve(t)
    ensures AfterSave(t, r, 3) == t.(rows := t.rows[r.id := RowOf(r)], parents := t.parents[r.id := r.parentIds])
  {
    hide KeysResolve;
    NoEdgesYet(t, r.id);
    var ps := r.parentIds;
    MergeStep([], ps, 0);
    MergeStep([], ps, 1);
    assert [] + [ps[0]] == [ps[0]] && [ps[0]] + [ps[1]] == ps && ps[..2] == ps;
  }

  lemma CombinationKept(t: Tables, merged: Tables, u: Tables, id: RevisionId, row: Row, ps: seq<RevisionId>)
    requires id !in t.rows && u.rows == merged.rows && u.parents == merged.parents
    requires merged == t.(rows := t.rows[id := row], parents := t.parents[id := ps])
    ensures HistoryKept(t, u) && u.rows.Keys == t.rows.Keys + {id} && u.rows[id] == row && ParentsOf(u, id) == ps
  {
  }

  /** A store that combined agrees with the other device as before: nobody else has the new revision. */
  lemma CombinationAgrees(d: Disk, d': Disk, peer: Tables, v: VaultId, other: RevisionId, id: RevisionId)
    requires IsCombination(d, d', v, other, id) && RowsAgree(d.tables, peer) && id !in peer.rows
    ensures RowsAgree(d'.tables, peer)
  {
    forall x | x in d'.tables.rows && x in peer.rows
      ensures d'.tables.rows[x] == d.tables.rows[x] && ParentsOf(d'.tables, x) == ParentsOf(d.tables, x) && x in d.tables.rows
    {
      assert x in d.tables.rows;
    }
  }

  lemma CombinationCloses(d: Disk, d': Disk, v: VaultId, other: RevisionId, id: RevisionId)
    requires IsCombination(d, d', v, other, id) && VaultClosed(d.tables, v)
    requires HeadOf(d.tables, v).value in VaultGraph(d.tables, v) && other in VaultGraph(d.tables, v)
    ensures VaultClosed(d'.tables, v)
  {
    hide HeadOf;
    forall c, p | c in d'.tables.rows && d'.tables.rows[c].vaultId == v && p in ParentsOf(d'.tables, c)
      ensures p in d'.tables.rows && d'.tables.rows[p].vaultId == v
    {
      if c == id {
        assert p == HeadOf(d.tables, v).value || p == other;
      } else {
        assert c in d.tables.rows && p in ParentsOf(d.tables, c);
      }
    }
  }

  /** What the two devices start the next session from, after A combined its head with B's. */
  ghost predicate NextSetting(st: Setting, w: World, next: Setting, id: RevisionId) {
    && next.sha == st.sha && next.v == st.v && next.chunkBytes > 0 && next.b == w.b.disk
    && HeadOf(st.b.tables, st.v).Some? && Sound(st.sha, next.a)
    && IsCombination(w.a.disk, next.a, st.v, HeadOf(st.b.tables, st.v).value, id)
    && id !in w.b.disk.tables.rows
  }

  /** Combining goes through on a device that has just finished a session with a fork. */
  lemma CombinedIsNext(st: Setting, w: World, d: Verdict, device: DeviceId, bytes: Bytes, id: RevisionId, message: string, next: Setting)
    requires Inv(st, w) && BothFinished(w) && AClassified(st, w, d) && Forked(d) && HeadOf(st.b.tables, st.v).Some?
    requires id !in w.a.disk.tables.rows && id !in w.b.disk.tables.rows
    requires next.sha == st.sha && next.v == st.v && next.chunkBytes > 0 && next.b == w.b.disk
    requires next.a == Combined(st.sha, device, w.a.disk, st.v, HeadOf(st.b.tables, st.v).value, MergeSucceeded(bytes), id, message).0
    ensures NextSetting(st, w, next, id)
  {
    hide Inv, VaultGraph, AClassified, Combined, IsCombination, Sound, RowsAgree, VaultClosed, HistoryKept, HeadsUnmoved, SizeFaithful;
    hide HeadOf;
    ForkedHeadsDiffer(st, w, d);
    RemoteHeads(st, w);
    AdvertisedHeadHeld(st, w);
    InvSafe(st, w);
    SettingFacts(st, w);
    CombineSucceeds(st.sha, device, w.a.disk, st.v, HeadOf(st.b.tables, st.v).value, bytes, id, message);
  }

  lemma NextIsGood(st: Setting, w: World, next: Setting, id: RevisionId)
    requires Inv(st, w) && BothFinished(w) && NextSetting(st, w, next, id)
    ensures GoodSetting(next)
    ensures HeadOf(next.a.tables, st.v) == Some(id) && HeadOf(next.b.tables, st.v) == HeadOf(st.b.tables, st.v)
  {
    hide Inv, VaultGraph, IsCombination, Sound, RowsAgree, VaultClosed, HistoryKept, HeadsUnmoved, SizeFaithful;
    var other := HeadOf(st.b.tables, st.v).value;
    InvSafe(st, w);
    SettingFacts(st, w);
    AdvertisedHeadHeld(st, w);
    CombinationHeads(st.sha, w.a.disk, next.a, st.v, other, id);
    CombinationAgrees(w.a.disk, next.a, w.b.disk.tables, st.v, other, id);
    CombinationCloses(w.a.disk, next.a, st.v, other, id);
    InvSwaps(st, w);
    RemoteHeads(SwappedSetting(st), Swapped(w));
  }

  lemma CombinationHeads(sha: Digest, d: Disk, d': Disk, v: VaultId, other: RevisionId, id: RevisionId)
    requires IsCombination(d, d', v, other, id) && Sound(sha, d)
    ensures HeadOf(d.tables, v).Some? && HeadOf(d.tables, v).value in VaultGraph(d.tables, v)
    ensures HeadOf(d'.tables, v) == Some(id) && id in VaultGraph(d'.tables, v)
    ensures VaultGraph(d'.tables, v)[id] == [HeadOf(d.tables, v).value, other]
    ensures v in d'.tables.vaults
  {
    hide Closed, Acyclic, BlobsGenuine, KeysResolve, LogsLinked, HistoryKept;
  }

  /** The combination is ahead of the other head, so the other device will fast-forward. */
  lemma CombinationIsAhead(next: Setting, w: World, base: RevisionId, other: RevisionId, id: RevisionId, e: Verdict)
    requires Inv(next, w) && BothFinished(w) && AClassified(next, w, e)
    requires HeadOf(next.a.tables, next.v) == Some(id) && HeadOf(next.b.tables, next.v) == Some(other)
    requires id in VaultGraph(next.a.tables, next.v) && id !in VaultGraph(next.b.tables, next.v) && id != other
    requires VaultGraph(next.a.tables, next.v)[id] == [base, other]
    ensures e == LocalAhead
  {
    hide Inv, VaultGraph, AClassified, Reaches, Closed, Acyclic, Agree, HeadOf, GoodSetting;
    VerdictOverStart(next, w, e);
    HalfSafe(next, w);
    JoinedSetting(next);
    var g, h := VaultGraph(next.a.tables, next.v), VaultGraph(next.b.tables, next.v);
    UnionAcyclic(g, h);
    assert Edge(UnionGraphs(g, h), id, other);
    ReachesParent(UnionGraphs(g, h), id, other);
    VerdictUnique(UnionGraphs(g, h), id, other, e, LocalAhead);
  }

  /** Both old heads precede the combination in a store that holds it as A made it. */
  lemma HeadsPrecede(a: Tables, t: Tables, v: VaultId, base: RevisionId, other: RevisionId, id: RevisionId)
    requires id in VaultGraph(a, v) && VaultGraph(a, v)[id] == [base, other]
    requires id in VaultGraph(t, v) && SeqToSet(ParentsOf(t, id)) == SeqToSet(ParentsOf(a, id))
    ensures Reaches(VaultGraph(t, v), base, id) && Reaches(VaultGraph(t, v), other, id)
  {
    hide Reaches;
    assert base in SeqToSet(ParentsOf(a, id)) && other in SeqToSet(ParentsOf(a, id));
    assert Edge(VaultGraph(t, v), id, base) && Edge(VaultGraph(t, v), id, other);
    ReachesParent(VaultGraph(t, v), id, base);
    ReachesParent(VaultGraph(t, v), id, other);
  }

  /** After a session both stores hold A's head as A has it. */
  lemma HeadSpread(st: Setting, w: World, id: RevisionId)
    requires Inv(st, w) && BothFinished(w) && HeadOf(st.a.tables, st.v) == Some(id) && id in VaultGraph(st.a.tables, st.v)
    ensures id in VaultGraph(w.a.disk.tables, st.v) && id in VaultGraph(w.b.disk.tables, st.v)
    ensures SeqToSet(ParentsOf(w.a.disk.tables, id)) == SeqToSet(ParentsOf(st.a.tables, id))
    ensures SeqToSet(ParentsOf(w.b.disk.tables, id)) == SeqToSet(ParentsOf(st.a.tables, id))
  {
    hide Inv, Sound, VaultClosed, Reaches, WantFacts, SizeFaithful, HeadsUnmoved;
    InvSwaps(st, w);
    HalfDelivered(SwappedSetting(st), Swapped(w));
    HalfSafe(SwappedSetting(st), Swapped(w));
    HalfSafe(st, w);
    ReachesSelf(VaultGraph(st.a.tables, st.v), id);
  }

  /**
   A fork, then one side combining its head with the other's under a fresh id, then one more
   session: both heads are the combination, and both old heads precede it on both devices.
   */
  lemma ForkThenCombineConverges(st: Setting, ws: seq<World>, acts: seq<Act>, dA: Verdict, dB: Verdict,
      device: DeviceId, bytes: Bytes, id: RevisionId, message: string,
      next: Setting, ws': seq<World>, acts': seq<Act>, eA: Verdict, eB: Verdict)
    requires GoodSetting(st) && IsRun(st, ws, acts) && Concluded(st, ws[|acts|], dA, dB) && Forked(dA)
    requires var w := ws[|acts|]; id !in w.a.disk.tables.rows && id !in w.b.disk.tables.rows
    requires HeadOf(st.a.tables, st.v).Some? && HeadOf(st.b.tables, st.v).Some?
    requires next == Setting(st.sha, next.chunkBytes, st.v, Combined(st.sha, device, ws[|acts|].a.disk, st.v,
      HeadOf(st.b.tables, st.v).value, MergeSucceeded(bytes), id, message).0, ws[|acts|].b.disk) && next.chunkBytes > 0
    requires IsRun(next, ws', acts') && Concluded(next, ws'[|acts'|], eA, eB)
    ensures var (a', b') := Settled(next, ws'[|acts'|], eA, eB);
      && HeadOf(a'.tables, st.v) == HeadOf(b'.tables, st.v) == Some(id)
      && BothPrecede(st, a'.tables, id) && BothPrecede(st, b'.tables, id)
  {
    hide Initial, Step, Inv, GoodSetting, NextSetting, Combined, AClassified, HeadOf, Settled, BothPrecede;
    RunInv(st, ws, acts, |acts|);
    CombinedIsNext(st, ws[|acts|], dA, device, bytes, id, message, next);
    NextIsGood(st, ws[|acts|], next, id);
    RunInv(next, ws', acts', |acts'|);
    NextSessionConverges(st, ws[|acts|], next, ws'[|acts'|], id, eA, eB);
  }

  ghost predicate BothPrecede(st: Setting, t: Tables, id: RevisionId) {
    HeadOf(st.a.tables, st.v).Some? && HeadOf(st.b.tables, st.v).Some?
    && Reaches(VaultGraph(t, st.v), HeadOf(st.a.tables, st.v).value, id)
    && Reaches(VaultGraph(t, st.v), HeadOf(st.b.tables, st.v).value, id)
  }

  lemma NextSessionConverges(st: Setting, w: World, next: Setting, w': World, id: RevisionId, eA: Verdict, eB: Verdict)
    requires Inv(st, w) && BothFinished(w) && NextSetting(st, w, next, id)
    requires Inv(next, w') && Concluded(next, w', eA, eB)
    ensures var (a', b') := Settled(next, w', eA, eB);
      && HeadOf(a'.tables, st.v) == HeadOf(b'.tables, st.v) == Some(id)
      && BothPrecede(st, a'.tables, id) && BothPrecede(st, b'.tables, id)
  {
    hide Inv, AClassified, GoodSetting, VaultGraph, Sound, Reaches, IsCombination, HeadOf, RowsAgree, VaultClosed, HistoryKept, HeadsUnmoved;
    hide UsedByA;
    var base, other := HeadOf(w.a.disk.tables, st.v), HeadOf(st.b.tables, st.v).value;
    NextIsGood(st, w, next, id);
    InvSafe(st, w);
    CombinationHeads(st.sha, w.a.disk, next.a, st.v, other, id);
    RemoteHeads(st, w);
    NotInVault(w.b.disk.tables, st.v, id);
    HeadInRows(st, w, id);
    CombinationIsAhead(next, w', base.value, other, id, eA);
    SettledFacts(next, w', eA, eB);
    HeadSpread(next, w', id);
    var (a', b') := Settled(next, w', eA, eB);
    SameHistoryFacts(w'.a.disk, a', st.v);
    SameHistoryFacts(w'.b.disk, b', st.v);
    HeadsPrecede(next.a.tables, w'.a.disk.tables, st.v, base.value, other, id);
    HeadsPrecede(next.a.tables, w'.b.disk.tables, st.v, base.value, other, id);
  }

  lemma NotInVault(t: Tables, v: VaultId, id: RevisionId)
    requires id !in t.rows
    ensures id !in VaultGraph(t, v)
  {
  }

  /** B's head is stored on B, so it is not the fresh id. */
  lemma HeadInRows(st: Setting, w: World, id: RevisionId)
    requires Inv(st, w) && HeadOf(st.b.tables, st.v).Some? && id !in w.b.disk.tables.rows
    ensures HeadOf(st.b.tables, st.v).value != id
  {
    hide Inv, GoodSetting, Sound, VaultClosed, RowsAgree, HistoryKept, HeadsUnmoved, HeadOf;
    HalfSafe(st, w);
    InvSwaps(st, w);
    HalfSafe(SwappedSetting(st), Swapped(w));
    GoodHead(st);
  }

  lemma GoodHead(st: Setting)
    requires GoodSetting(st) && HeadOf(st.b.tables, st.v).Some?
    ensures HeadOf(st.b.tables, st.v).value in st.b.tables.rows
  {
    hide VaultClosed, RowsAgree, SizeFaithful, Closed, Acyclic, BlobsGenuine, BlobBacked, KeysResolve, LogsLinked;
  }
}
