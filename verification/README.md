# PassVault synchronization, verified

PassVault keeps an encrypted vault on several devices as an immutable graph of revisions. Two devices
meet over a control channel (JSON messages) and a bulk channel (binary frames), compare their graphs
without decrypting anything, send each other what is missing, and then decide whether one of them can
move its head, or whether the two have forked. This project models that machinery in Dafny, from the
ancestry algorithms up to whole sessions of two devices, and proves what it promises.
`dafny verify dfyconfig.toml` checks the whole project.

## How it is laid out

1. **Ancestry.** `Reachability` defines paths, reachability and acyclicity of a revision graph;
   `Ancestry`, `Divergence`, `TopologicalOrder` and `RemoteHistory` are the worklist and explicit-stack
   algorithms of `dag.ts`, each an executable method proved against those definitions.
2. **Store and engine.** `Store` has the blob store and the metadata tables, in which every statement
   that reaches the disk is a durable step. `Engine` has the operations, as the exact list of steps they
   take and as a class that takes them; `EngineRuns` proves what every prefix of every run keeps, so a
   crash is simply a prefix; `ImmutableHistory` proves that no operation touches a stored revision, and
   `Operations` says, from the store's side, what each operation leaves behind.
3. **Bulk transfer.** `Framing` and `Chunks` are the frame codec, the cutting and the assembling;
   `Inbound` is the receiving half of a session; `TransferConfluence` proves that headers, frames,
   duplicates and strangers' frames may come in any order.
4. **One side of a session.** `Session` is the side machine: its state, the pieces of `run` between two
   awaits, the serving loop and the handlers. `SyncSessions` is the session object that does the same in
   place. `SingleSession`, `PeerRevisions`, `Conversation` and `Answers` are about a side whose peer may
   send anything: what it keeps, adds, checks, answers and announces.
5. **Two devices.** `JointSession` puts two sides and four queues together; `TransferLink` is the
   invariant of one direction. `JointSafety`, `JointTransfers` and `JointIngest` prove that every step of
   either device keeps the joint invariant; `JointLoss`, `JointProgress`, `JointRuns` and `JointDrops`
   say exactly when a session ends well; `SessionOutcome` and `HeadConvergence` say what it has achieved.
   `FirstJoin` runs the smallest story through all of it, once to a good end and once to a stall.
6. **Smaller machines.** `Protocol` (the validating parser) and `ProtocolRules` (what it must accept, field
   by field), `ControlInbox` (message routing),
   `MemoryLink` (the backpressured channel), `RateLimiting` (the token bucket).

Classes stand for the objects whose methods change their fields. Each of their methods is tied to a
function of the old state, and the theorems are about those functions and the runs made of them.

## Main results

- **Safety of a session, at every moment and under every schedule of the four queues:** both stores stay
  sound (closed, acyclic, every row backed by bytes of its hash and size, heads stored, head log a linked
  chain), agree on shared revisions, and no head moves; what was received is always a prefix of what was
  asked for (`SessionOutcome.SafeAtEveryMoment`).
- **What a finished session did:** each device received exactly its want list, in order, the other sent
  exactly that, and each holds everything the other's advertised head rests on
  (`SessionOutcome.FinishedSessionDelivered`).
- **When a session finishes:** every schedule ends, and one that has come to rest has both devices
  finished if and only if no frame was dropped (`JointRuns.RestingRunFinishedIff`). Before it starts: every
  resting run has both devices finished if and only if each revision that one head rests on and the other
  device lacks is cut into at most sixty-four chunks (`JointDrops.SessionFinishesIff`, `SomeRunDropsIff`).
  At the default chunk size a first join of a file one byte over four mebibytes can stall
  (`FirstJoin.FourMebibytesCanStall`).
- **Head convergence:** after a session both devices come to mirrored verdicts; once they have used them
  the heads are equal exactly unless the two had forked, and each old head precedes the new one
  (`HeadConvergence.RelatedHeadsConverge`). After a fork, one side combining and one more session make
  both heads the combination (`HeadConvergence.ForkThenCombineConverges`).
- **An arbitrary peer** gets no message about the vault and no frame before it was verified, moves no
  head, and can only add revisions whose bytes hash to the declared hash and whose parents are stored
  (`SingleSession`). Each of them is what one of its headers announced, vault and parents included
  (`PeerRevisions.NewRowsWereAnnounced`).
- **The opening and the answers of such a session:** past each phase the peer has greeted in this version,
  tracks this vault or none, and sent the history that is used (`Conversation.OpeningWasChecked`); every
  finished transfer is answered once and truthfully, and received is exactly what was accepted
  (`Answers.AnswersAccounted`); every header is that of a stored revision (`Answers.EveryHeaderIsTrue`).
- **Operations:** what import, record, ingest, merge, promotion and adoption leave in a sound store, with
  every case in which they do nothing or are refused (`Operations.RecordMeans` and its neighbours).
- **The parser** accepts exactly the messages that the protocol's rules describe, and says what they say
  (`ProtocolRules.ParsedIff`, `ParseFollows`).
- **Immutable history:** what is stored when an operation is done keeps its row and its parents after every
  later durable step of every run (`ImmutableHistory.HistoryNeverRewritten`); what an operation completed
  keeps exactly the parents it was made with (`ImmutableHistory.CompletedForGood`).
- **Crashes:** stopping any run of engine operations after any durable step, or pairing earlier metadata
  with later blobs, leaves a sound store (`EngineRuns.CrashAnywhereIsSound`, `StaleMetadataIsSound`).
- **Merge bases:** finding none means being unrelated, for every pair of revisions, exactly on the graphs
  without a cycle (`Divergence.BasesShowIffAcyclic`).

## What is assumed

The digest is an arbitrary function; joint sessions and crash results ask only that colliding contents
are equally long (`SizeFaithful`). Verifying a peer, decrypting and merging are oracles: a verdict and
arbitrary bytes. New revision ids are fresh. Joint sessions start from two sound stores in which the
vault rests on itself and shared revisions are the same; `SettledIsGood` and `NextIsGood` show that
sessions and combinations lead back to such a start.

## Where the code and its documentation part

- `findMergeBase` is documented to return nothing only for unrelated revisions. That holds for all pairs
  exactly if the graph has no cycle (`Divergence.BasesShowIffAcyclic`); a revision on a cycle, compared
  with itself, has no merge base, and neither has a two-revision cycle (`CycleHidesMergeBase`).
  `RemoteHistory.UnionAcyclic` shows when a joined graph has none.
- The engine stores a received or merged revision outside a transaction, each statement its own commit. A
  crash between the row and its edges leaves a row with some of its parents missing, and the row then
  counts as present, so no later session repairs it. `EngineRuns.CrashMidIngestIff` and `CrashMidMergeIff`
  say at each point whether the parents survive; over all points, an ingest is safe exactly if it declares
  no parent (`NoIngestCrashLosesIff`), and a merge only once its last edge is there. Closedness, acyclicity, blob
  backing and heads survive even there.
- Waiting for an answer and draining have no timeout, although every wait is documented as bounded. A
  dropped frame therefore leaves the sending device waiting for ever (`JointLoss.LostIsUnfinished`), and a
  frame can be dropped exactly if a device has to send a revision of more than sixty-four chunks
  (`JointDrops.SomeRunDropsIff`).
- A session is about one vault and a list of wanted revisions, but it ingests whatever the peer announces,
  under whatever known vault the header names. A verified peer can add a revision to another vault before
  anything was asked for (`PeerRevisions.VerifiedPeerCanAdd`); new revisions are of the vault and on the
  list if all headers were (`KeepingToTheList`).
- The rate limiter's bound holds in every window while at most a hundred thousand different keys have called
  (`RateLimiting.TableWindowBound`). With one key more the table is cleared, and no bound holds: one key is
  admitted as often as one likes at a single moment (`OneKeyMoreBreaksEveryBound`).
- An empty vault name does not survive the parser (`Protocol.EmptyNameIsReplaced`).

## Model

| member | source | states |
|---|---|---|
| `Ancestry.AncestorsOf` | packages/core/src/dag.ts:75-95 | Terminates on every graph and returns each revision that reaches the start by walking parents, once, undefined parents included as a frontier, and nothing else. |
| `Ancestry.IsAncestor` | packages/core/src/dag.ts:98-124 | The early-exit search is true exactly for members of the reflexive-transitive parent closure. |
| `Divergence.FindMergeBase` | packages/core/src/dag.ts:134-168 | On any graph, lists once each exactly the common ancestors that are not properly behind another common ancestor. |
| `Divergence.MergeBaseCovers` | packages/core/src/dag.ts:134-168 | On an acyclic graph every common ancestor is an ancestor of some merge base. |
| `Divergence.MergeBaseExists` | packages/core/src/dag.ts:126-133 | On an acyclic graph a merge base exists exactly when the two revisions share an ancestor. |
| `Divergence.MergeBasesAntichain` | packages/core/src/dag.ts:134-168 | No merge base is an ancestor of another one. |
| `Divergence.MergeBasesSymmetric` | packages/core/src/dag.ts:134-168 | The merge bases of two revisions do not depend on their order. |
| `Divergence.CycleHidesMergeBase` | packages/core/src/dag.ts:126-133 | A two-revision cycle has common ancestors and no merge base: the acyclicity condition is needed. |
| `Divergence.BasesShowIffAcyclic` | packages/core/src/dag.ts:126-168 | Every related pair has a merge base if and only if the graph has no cycle. |
| `Divergence.FreshLeafKeepsVerdict` | packages/core/src/dag.ts:189-208 | A verdict about two stored revisions holds or fails as before once a fresh revision is added to a closed history. |
| `Divergence.ClassifyDivergence` | packages/core/src/dag.ts:189-208 | The five-way verdict is the one whose documented meaning holds; on an acyclic graph for every pair of heads. |
| `Divergence.SwappedHeadsMirror` | packages/core/src/dag.ts:170-208 | On an acyclic graph, swapping the heads gives the mirrored verdict with the same set of merge bases. |
| `Divergence.VerdictUnique` | packages/core/src/dag.ts:170-179 | On an acyclic graph the five meanings exclude one another. |
| `TopologicalOrder.Order` | packages/core/src/dag.ts:220-264 | Terminates; succeeds exactly when the graph restricted to the targets is acyclic, and then returns each target once with every in-target parent before its child; a failure names a revision on a cycle. |
| `TopologicalOrder.PushParents` | packages/core/src/dag.ts:250-260 | Pushing a frame's unfinished parents keeps the depth-first stack in shape; a parent that is already on the path is on a cycle. |
| `TopologicalOrder.StackIsPath` | packages/core/src/dag.ts:224-260 | The expanded frames of the stack are one path of parent edges: what `onStack` stands for. |
| `TopologicalOrder.ExpandKeeps` | packages/core/src/dag.ts:236-249 | Despite duplicate stack entries an id that gets expanded was not on the path already. |
| `TopologicalOrder.OrderedIsAcyclic` | packages/core/src/dag.ts:210-264 | Whoever can be put in parents-first order contains no cycle. |
| `TopologicalOrder.OrderExists` | packages/core/src/dag.ts:210-264 | Every finite acyclic restriction has a parents-first order. |
| `RemoteHistory.BuildGraph` | packages/core/src/dag.ts:32-45 | Defines exactly the listed ids; the last entry of an id wins. |
| `RemoteHistory.ValidateRemoteGraph` | packages/core/src/dag.ts:293-302 | Accepts exactly the summaries that repeat no id and contain no cycle. |
| `RemoteHistory.MissingRevisions` | packages/core/src/dag.ts:273-285 | Returns exactly the defined ancestors of the remote head that are not held, once each, parents first; on an acyclic graph it always succeeds. |
| `RemoteHistory.WantListIngestsInOrder` | packages/core/src/dag.ts:266-285 | When the remote history is closed below its head, after any stored prefix of the want list the next revision's parents are all held. |
| `RemoteHistory.JoinGraphs` | packages/core/src/dag.ts:47-63 | Listing all nodes of the base and then all of the overlay gives the graph of both, in which the overlay's node wins. |
| `RemoteHistory.LocalAncestryIsLocal` | packages/core/src/dag.ts:48-63 | In the union of a closed graph with an agreeing one, the ancestors of a local revision are its local ancestors. |
| `RemoteHistory.UnionAcyclic` | packages/core/src/dag.ts:48-63 | The union of a closed acyclic graph with an agreeing acyclic graph is acyclic. |
| `RemoteHistory.UnionNeedsClosure` | packages/core/src/dag.ts:48-63 | Without closure two acyclic graphs can have a cyclic union. |
| `RemoteHistory.UnionNeedsAgreement` | packages/core/src/dag.ts:48-63 | Without agreement they can too. |
| `RemoteHistory.DevicesReachMirroredVerdicts` | packages/sync/src/session.ts:380-385 | Two devices that each join their own graph with the other's come to mirrored verdicts. |
| `Framing.EncodeChunkFrame` | packages/core/src/framing.ts:25-41 | Fails exactly when a header field does not fit in 32 bits; otherwise fills the buffer with the big-endian wire form. |
| `Framing.FrameRoundTrip` | packages/core/src/framing.ts:25-65 | Every frame with 32-bit header fields decodes to itself. |
| `Framing.WireRoundTrip` | packages/core/src/framing.ts:55-65 | Decoding refuses exactly the frames shorter than a header, and what it decodes re-encodes to the same bytes. |
| `Chunks.ChunkCountFor` | packages/core/src/framing.ts:67-73 | The least number of chunks that covers the size, and one for size zero. |
| `Chunks.SlicesTile` | packages/sync/src/session.ts:414-425 | The sender's slices, concatenated in order, are the bytes, for every size and chunk size. |
| `Chunks.PlanMatchesSlices` | packages/core/src/transfers.ts:11-24 | The chunk plan cuts where the sender does, and has no entry for an empty revision. |
| `Chunks.ChunkAssembler.Accept` | packages/core/src/framing.ts:94-109 | Takes a new in-range frame that fits, ignores a duplicate, refuses the rest and then changes nothing. |
| `Chunks.AcceptMeans` | packages/core/src/framing.ts:94-109 | A frame in range that brings a new index and fits the size is taken whole; the first chunk of an index stays; any other frame changes nothing, and it is refused exactly if it is out of range or too long. |
| `Chunks.ChunkAssembler.MissingIndices` | packages/core/src/framing.ts:119-127 | Lists exactly the indices not yet there, in order. |
| `Chunks.ChunkAssembler.Assemble` | packages/core/src/framing.ts:129-140 | A complete assembly is the concatenation of its chunks in index order. |
| `Chunks.GenuineJoin` | packages/core/src/framing.ts:82-140 | A complete assembly of genuine slices is the original bytes. |
| `Inbound.InboundTransfers.HandleFrame` | packages/sync/src/session.ts:475-492 | Keeps, drops, assembles, refuses or delivers the frame exactly as the receiver function says. |
| `Inbound.InboundTransfers.HandleHeader` | packages/sync/src/session.ts:460-473 | Opens the transfer and hands the waiting frames over, newest first, in place. |
| `TransferConfluence.DeliveredIffAllKept` | packages/sync/src/session.ts:460-492 | For any interleaving of a header, its frames, duplicates and foreign transfers: the revision is delivered if and only if the header came and every slice was kept at least once. |
| `TransferConfluence.TransferIsConfluent` | packages/sync/src/session.ts:460-492 | If no own frame met a full orphan list, the original bytes are delivered exactly once as soon as the header and every slice have come, in whatever order. |
| `Store.BlobStore.Put` | packages/storage-node/src/blobStore.ts:47-72 | Returns the digest; an existing blob is kept, a new one appears whole. |
| `Store.MetadataStore.Begin` | packages/storage-sql/src/sqliteMetadataStore.ts:139-165 | Opens a transaction that remembers the tables as it found them. |
| `Store.MetadataStore.CommitTransaction` | packages/storage-sql/src/sqliteMetadataStore.ts:139-165 | Makes all its statements durable as one step. |
| `Store.MetadataStore.Rollback` | packages/storage-sql/src/sqliteMetadataStore.ts:139-165 | Leaves nothing of the transaction. |
| `Store.MetadataStore.SaveVault` | packages/storage-sql/src/sqliteMetadataStore.ts:177-194 | Inserts or overwrites the vault row, one statement. |
| `Store.MetadataStore.SaveRevision` | packages/storage-sql/src/sqliteMetadataStore.ts:223-255 | Refuses exactly when a parent is absent, or the vault of a revision that is not stored yet; otherwise keeps an existing row but still inserts the edges, statement by statement. |
| `Store.MetadataStore.AppendHeadEvent` | packages/storage-sql/src/sqliteMetadataStore.ts:292-305 | Appends one event, one statement. |
| `Store.MetadataStore.LoadGraph` | packages/storage-sql/src/sqliteMetadataStore.ts:257-284 | Returns the vault's rows with their edges. |
| `Store.MetadataStore.AncestorIdsOf` | packages/storage-sql/src/schema.ts:145-154 | The fixpoint over the stored edges returns each ancestor once and nothing else. |
| `Store.QueryAgreesWithSearch` | packages/storage-sql/src/sqliteMetadataStore.ts:287-290 | The query and the search in the loaded graph agree as soon as all ancestors belong to the vault. |
| `Store.SavePrefix` | packages/storage-sql/src/sqliteMetadataStore.ts:232-254 | What the tables hold after each statement of a save. |
| `Engine.SyncEngine.Import` | packages/sync/src/engine.ts:78-110 | A blob, then one transaction with vault, root revision, head and event. |
| `Engine.SyncEngine.Record` | packages/sync/src/engine.ts:119-150 | Nothing if the bytes are the head's; otherwise a blob, then one transaction with the child of the head, the moved head and its event. |
| `Engine.SyncEngine.Ingest` | packages/sync/src/engine.ts:160-208 | Present, wrong hash, missing parent or stored verbatim, with exactly the durable steps of each case. |
| `Engine.SyncEngine.MergeInto` | packages/sync/src/engine.ts:233-280 | Stores a revision with base and incoming as parents and moves no head; every failing case with what it leaves behind. |
| `Engine.SyncEngine.Advance` | packages/sync/src/engine.ts:316-345 | Promotion and fast-forward: one transaction with head and event, refused for an unknown revision or another vault's. |
| `Engine.SyncEngine.Adopt` | packages/sync/src/engine.ts:358-370 | Keeps the peer's vault id; a known vault is left alone. |
| `Operations.ImportMeans` | packages/sync/src/engine.ts:78-110 | The store gains a root revision of the new vault with the bytes' hash and size and this device as origin; the head is on it, the log has its first entry, the blob is there. |
| `Operations.RecordMeans` | packages/core/src/lineage.ts:55-67 | Refused for an unknown vault, nothing if the head has these bytes; otherwise exactly one revision is gained, whose only parent is the old head, which it reaches, with this device as origin; head and log move onto it. |
| `Operations.IngestMeans` | packages/sync/src/engine.ts:160-208 | Known, wrong hash, first missing parent, unknown vault, or stored as declared: when each happens and what the store then holds; no head moves. |
| `Operations.MergeMeans` | packages/sync/src/engine.ts:233-280 | When a merge throws, wants credentials or fails; otherwise one revision is gained with base and incoming as parents and this device as origin, and no head moves. |
| `Operations.MoveMeans` | packages/core/src/revisions.ts:5-56 | Refused unless the revision is stored and of this vault; otherwise only head and log change, and the event names where the head was and why it moved. |
| `Operations.AdoptMeans` | packages/sync/src/engine.ts:358-370 | An unknown vault is added under the peer's id and name, with no head; a known one is left alone. |
| `EngineRuns.OperationThroughout` | packages/sync/src/engine.ts:66-73 | Every operation leaves a sound store after each single durable step. |
| `EngineRuns.CrashAnywhereIsSound` | packages/sync/src/engine.ts:66-73 | So does every run of operations, stopped after any durable step. |
| `EngineRuns.StaleMetadataIsSound` | apps/mobile/src/platform/sqlite.ts:24-32 | Any earlier committed metadata beside any later blob set is sound. |
| `EngineRuns.LateMetadataNeedsItsBlob` | packages/sync/src/engine.ts:66-73 | The other way round is not: blob first is needed. |
| `EngineRuns.IngestIsVerbatim` | packages/sync/src/engine.ts:160-208 | A completed ingest adds one revision with the declared hash and parents and touches nothing else, heads included. |
| `EngineRuns.CrashMidIngestIff` | packages/sync/src/engine.ts:206-206 | After a crash inside an ingest the stored parents are the declared ones exactly if every parent not yet inserted occurs among those inserted; a later ingest leaves the row as it is. |
| `EngineRuns.CrashCanLoseAParent` | packages/sync/src/engine.ts:206-206 | The crash right after the row: the revision is stored with no parent at all, whatever it declared. |
| `EngineRuns.NoIngestCrashLosesIff` | packages/sync/src/engine.ts:160-208 | No crash point of an ingest leaves the row with parents missing if and only if it declares none. |
| `EngineRuns.CrashMidMergeIff` | packages/sync/src/engine.ts:233-280 | A merge cut off after its row has all its parents if and only if every step was taken. |
| `ImmutableHistory.HistoryNeverRewritten` | packages/sync/src/engine.ts:66-73 | What is stored when an operation of a run is done has the same row and the same parents after every later durable step, whatever the other operations do and wherever the run is cut off. |
| `ImmutableHistory.OperationAvoids` | packages/sync/src/engine.ts:66-73 | Every operation inserts rows and edges under ids that are not stored, and under no other. |
| `ImmutableHistory.CompletedForGood` | packages/sync/src/engine.ts:160-208 | A revision that an operation imported, recorded, received or merged has, after every later durable step of the run, its row and exactly the parents it was made with. |
| `ImmutableHistory.SaveKeepsHistoryIff` | packages/storage-sql/src/sqliteMetadataStore.ts:223-255 | A save leaves the history as it was exactly if the id is new or every declared parent is a parent already: why a stored id must not be saved again. |
| `EngineRuns.SaveAcyclicIff` | packages/storage-sql/src/sqliteMetadataStore.ts:223-255 | Saving under any id, stored or not, keeps the history acyclic exactly when no declared parent rests on that id. |
| `EngineRuns.SaveKeeps` | packages/storage-sql/src/sqliteMetadataStore.ts:223-255 | A save of a fresh revision is sound after each of its statements. |
| `EngineRuns.MoveKeeps` | packages/core/src/revisions.ts:5-56 | A head and its event moved together keep the log a linked chain that ends at the head. |
| `EngineRuns.UndoUndoes` | packages/core/src/revisions.ts:72-85 | Undoing the last move is possible exactly if there was a head before, gives back the very vault, keeps the log linked, and can itself be undone. |
| `TransferLink.StartLink` | packages/sync/src/session.ts:399-412 | Announcing the next wanted revision keeps the relation between sender, channels and receiver. |
| `TransferLink.FrameLink` | packages/sync/src/session.ts:475-492 | So does delivering a frame, and exactly the drop of a frame makes the transfer a lost one. |
| `TransferLink.HeaderMeetsOrphans` | packages/sync/src/session.ts:460-473 | A header that comes after some of its frames takes them all, and completes the revision if they are all there. |
| `TransferLink.IngestLink` | packages/sync/src/session.ts:501-527 | A finished transfer is the revision being served, byte for byte. |
| `TransferLink.AckLink` | packages/sync/src/session.ts:426-433 | The only answer on its way is an acceptance of the revision being served. |
| `SyncSessions.HistoryOf` | packages/sync/src/engine.ts:393-401 | The summary names each revision of the vault once, with its hash, size and parents. |
| `SyncSessions.CheckHistory` | packages/sync/src/session.ts:126-131 | The session goes on exactly with the summaries that repeat no id and contain no cycle, and builds their graph. |
| `SyncSessions.SyncSession.HandleFrame` | packages/sync/src/session.ts:475-492 | In place, what the side machine does with a frame, refusals answered. |
| `SyncSessions.SyncSession.HandleControl` | packages/sync/src/session.ts:538-579 | In place, what the side machine does with a control message, for every kind of message. |
| `SyncSessions.SyncSession.RejectRevision` | packages/sync/src/session.ts:529-534 | Answers with a refusal, stops expecting the revision, and wakes a drain that has nothing left. |
| `SyncSessions.SyncSession.IngestNext` | packages/sync/src/session.ts:501-527 | Hands the oldest finished transfer to the engine, counts and answers it by the outcome. |
| `SyncSessions.SyncSession.ServeNext` | packages/sync/src/session.ts:389-435 | One turn of the serving loop: skip, announce, push a frame, or go on after the answer. |
| `SyncSessions.SyncSession.MeetAuth` | packages/sync/src/session.ts:234-309 | Only a trusted peer becomes known and is sent the vault summary. |
| `SyncSessions.SyncSession.MeetSummary` | packages/sync/src/session.ts:310-343 | Refuses two empty sides and two different vaults, adopts the peer's vault if there is none, then sends the history. |
| `SyncSessions.SyncSession.MeetHistory` | packages/sync/src/session.ts:126-147 | Validates the peer's history, then asks for the want list of its head. |
| `SyncSessions.SyncSession.Proceed` | packages/sync/src/session.ts:117-176 | The next piece of `run`, whichever it is; it stays put exactly when no piece can run. |
| `JointSafety.HonestHistoryAccepted` | packages/sync/src/session.ts:126-131 | An honest peer's summary passes validation, and the graph built from it is the peer's. |
| `JointSafety.NextAwaited` | packages/sync/src/controlInbox.ts:81-102 | The opening messages are met in the order they were sent, none lost and none overtaken. |
| `JointTransfers.ReceivedSoFar` | packages/sync/src/session.ts:501-527 | What a device received is a prefix of what it asked for, all of it once the other has nothing left to serve. |
| `JointIngest.IngestedStore` | packages/sync/src/session.ts:501-527 | The next delivered revision is always stored, never refused, and keeps the stores agreeing. |
| `JointIngest.StepKeeps` | packages/sync/src/session.ts:117-176 | Every step of either device, run, serve, ingest or delivery, keeps the joint invariant. |
| `JointIngest.RunInv` | packages/sync/src/session.ts:117-176 | So the invariant holds in every world of every run. |
| `JointLoss.LossIsDropping` | packages/sync/src/session.ts:475-482 | A step makes a frame lost exactly when it drops one, and nothing ever makes up for it. |
| `JointLoss.LostIsUnfinished` | packages/sync/src/session.ts:426-441 | After a loss the two devices never both finish. |
| `JointProgress.StepSpends` | packages/sync/src/session.ts:137-155 | Every step of either device lowers a lexicographic budget. |
| `JointProgress.NoDeadlock` | packages/sync/src/session.ts:137-155 | Unless a frame was lost, some step that loses none is possible until both devices have finished. |
| `JointRuns.LossRemembersDrops` | packages/sync/src/session.ts:475-482 | A world shows a loss exactly if one of the steps before dropped a frame. |
| `JointRuns.RestingRunFinishedIff` | packages/sync/src/session.ts:117-176 | A run that can go no further left both devices finished if and only if it dropped no frame. |
| `JointRuns.EveryRunEnds` | packages/sync/src/session.ts:117-176 | No schedule runs for ever. |
| `JointRuns.DropFreeRunCanFinish` | packages/sync/src/session.ts:117-176 | Any run without a drop can be carried on, without a drop, until both devices have finished. |
| `JointDrops.SmallSessionDropsNothing` | packages/sync/src/session.ts:475-482 | While every revision that one head rests on and the other device lacks is cut into at most sixty-four chunks, no schedule drops a frame. |
| `JointDrops.LargeRevisionCanBeDropped` | packages/sync/src/session.ts:475-482 | Whenever a device is about to serve a larger revision, some schedule drops one of its frames. |
| `JointDrops.LargeSessionCanStall` | packages/sync/src/session.ts:426-441 | From any start of a session with such a revision there is a run that drops a frame and comes to rest with a device unfinished. |
| `JointDrops.SomeRunDropsIff` | packages/sync/src/session.ts:475-482 | Some run from the start drops a frame if and only if one device has to send the other a revision of more than sixty-four chunks. |
| `JointDrops.SessionFinishesIff` | packages/sync/src/session.ts:117-176 | Every run from the start that can go no further has both devices finished if and only if neither device has to send such a revision. |
| `SessionOutcome.SafeAtEveryMoment` | packages/sync/src/session.ts:117-176 | At every moment of every run both stores are sound, closed and agreeing, their earlier history untouched, no head moved, and received is a prefix of wanted. |
| `SessionOutcome.FinishedSessionDelivered` | packages/sync/src/session.ts:165-175 | At the end received equals wanted equals what the other sent, in order, on both sides, and each store holds every ancestor of the other's advertised head. |
| `SessionOutcome.Classify` | packages/sync/src/session.ts:360-385 | The verdict a session reports, a side without a head included, is the right one on an acyclic union. |
| `SessionOutcome.VerdictsMirror` | packages/sync/src/session.ts:360-385 | Both devices of a finished session come to mirrored verdicts, though each compares over its own grown store. |
| `HeadConvergence.VaultServices.UseVerdict` | packages/services/src/vaultServices.ts:1004-1018 | Only a device that is behind moves its head, and only onto the peer's. |
| `HeadConvergence.VaultServices.CombineAndUse` | packages/services/src/vaultServices.ts:1315-1345 | Merges the head with the other version and promotes the result; a failed merge moves nothing. |
| `HeadConvergence.UseVerdictMeans` | packages/services/src/vaultServices.ts:1004-1018 | A device that is behind and holds the peer's head fast-forwards onto it, log included; in every other case nothing happens. |
| `HeadConvergence.CombineMeans` | packages/services/src/vaultServices.ts:1315-1345 | When combining does nothing, throws or fails; otherwise the store gains the child of head and other version, and the head is promoted onto it. |
| `HeadConvergence.RelatedHeadsConverge` | packages/services/src/vaultServices.ts:1004-1018 | After a session and both verdicts: heads equal exactly unless forked, each old head an ancestor of the new one, a fork changes nothing, and the stores are again a proper start. |
| `HeadConvergence.CombineSucceeds` | packages/services/src/vaultServices.ts:1315-1345 | Combining with another stored revision goes through, keeps the store sound, and adds exactly the child of the two. |
| `HeadConvergence.ForkThenCombineConverges` | packages/services/src/vaultServices.ts:1315-1345 | Fork, one combination under a fresh id, one more session: both heads are the combination and both old heads precede it on both devices. |
| `SingleSession.TrustComesFirst` | packages/sync/src/session.ts:186-264 | Whatever the peer sends: every summary, history, want, header, answer or completion was preceded by the peer's verification and had not been sent then. |
| `SingleSession.BytesComeAfterTrust` | packages/sync/src/session.ts:186-264 | Whatever the peer sends: not one frame leaves on the bulk channel before the peer was verified, and until then nothing was said of the vault either. |
| `SingleSession.StoreKeptAlways` | packages/sync/src/session.ts:501-579 | Whatever the peer sends: the store stays sound, earlier history and heads untouched, new rows received from the verified device. |
| `SingleSession.NewRevisionsGenuine` | packages/sync/src/engine.ts:169-207 | A revision that came in has bytes of its declared hash and size and all its parents stored. |
| `SingleSession.TransfersHonest` | packages/sync/src/session.ts:126-176 | Whatever the peer sends: its graph was validated before anything is asked for, what counts as received is stored, what counts as sent was acknowledged. |
| `SingleSession.MissingIsAccountedFor` | packages/sync/src/session.ts:165-175 | Whatever the peer sends: what is reported missing was wanted, and a wanted revision that is not reported was answered for or taken back by the peer. |
| `PeerRevisions.NewRowsWereAnnounced` | packages/sync/src/session.ts:501-527 | Whatever the peer sends: every new row has the id, vault, hash, message and parents that one of the headers heard so far declared. |
| `PeerRevisions.KeepingToTheList` | packages/sync/src/session.ts:501-527 | If every header heard names the vault and a wanted revision, every new row is of the vault and wanted. |
| `PeerRevisions.VerifiedPeerCanAdd` | packages/sync/src/session.ts:460-527 | Otherwise not: a verified peer adds a revision of its choice to any vault the device knows, on any stored parents, before anything was asked for. |
| `Conversation.OpeningWasChecked` | packages/sync/src/session.ts:186-343 | Whatever the peer sends: past the hello it has greeted in version one and whoever is known is the one who did; past the summary it tracks this vault or none, or gave its own to a device without one; the graph used is of a history it sent; what is served is the rest of a list it sent; completing and finishing happen only when they may. |
| `Answers.AnswersAccounted` | packages/sync/src/session.ts:501-534 | Whatever the peer sends: the answers given are exactly those called for, in order; a finished transfer is accepted exactly if the store has or takes it, a transfer that a frame does not fit is refused; received is exactly what was accepted. |
| `Answers.IngestSays` | packages/sync/src/session.ts:501-527 | The oldest finished transfer gets one answer, accepted exactly if its revision is in the store afterwards, and is no longer expected. |
| `Answers.MisfitsAreRefused` | packages/core/src/framing.ts:94-109 | A frame with no such chunk, or with more bytes than announced, ends its transfer, which is refused; no other frame does. |
| `Answers.HeaderOutcome` | packages/sync/src/session.ts:460-473 | A header opens its transfer afresh, whatever went on under its number; waiting frames leave it open, finish it or have it refused. |
| `Answers.LastOrphanCounts` | packages/sync/src/session.ts:465-472 | Of two waiting frames for the same chunk the one that came last counts. |
| `Answers.ServeMeans` | packages/sync/src/session.ts:389-435 | One turn of serving: an unknown revision is skipped without a word, a stored one gets the next number and its true header, then its frames; sent counts what was accepted. |
| `Answers.EveryHeaderIsTrue` | packages/sync/src/session.ts:399-412 | Whatever the peer sends: the headers said are numbered from one and carry the vault, hash, size, parents, chunk count and message of a stored revision. |
| `Answers.AllWasSaidRightly` | packages/sync/src/session.ts:266-343 | Whatever the peer sends: the summary said is the vault's id, name, revision count and head; the want list said is the one kept; completion is said exactly by a session that completed. |
| `Answers.OpeningRefuses` | packages/sync/src/session.ts:199-260 | Another version, an untrusted peer and a vault this device does not have each end the session, with the error that says so. |
| `Answers.CancelForgets` | packages/sync/src/session.ts:559-567 | A cancelled open transfer is no longer open and its revision no longer expected; cancelling anything else changes nothing. |
| `Answers.ProgressWakes` | packages/sync/src/session.ts:446-458 | While waiting, whatever ends a transfer or the peer's completion ends the waiting if nothing is expected or the peer has completed. |
| `Answers.WaitingBegins` | packages/sync/src/session.ts:446-449 | On entry the waiting is over exactly if nothing is expected, whatever the peer has said. |
| `Answers.FirstAnswerCounts` | packages/sync/src/session.ts:549-553 | An answer counts for the revision being served, and only the first one. |
| `Answers.FailsTheInboxIff` | packages/sync/src/session.ts:541-550 | The inbox fails exactly on a reported error or a header from nobody known. |
| `FirstJoin.NewDeviceJoins` | packages/sync/src/session.ts:310-333 | A device that imported a vault meets one that has nothing: the session can run to its end on both, the new device received exactly that revision, and after the verdicts both heads are it. |
| `FirstJoin.FirstJoinFinishesIff` | packages/sync/src/session.ts:475-482 | The first session between an importer and a new device is sure to finish if and only if the file has at most sixty-four chunks. |
| `FirstJoin.FourMebibytesCanStall` | packages/sync/src/session.ts:475-482 | A concrete stall: at the default chunk size a file of four mebibytes and one byte has sixty-five chunks, and a run of its first session drops a frame and rests unfinished. |
| `ControlInbox.ControlInbox.Accept` | packages/sync/src/controlInbox.ts:34-60 | Fails on malformed input or a reported error, else hands the message to the handler, the first waiter or the queue. |
| `ControlInbox.ControlInbox.On` | packages/sync/src/controlInbox.ts:62-73 | The handler gets what was queued, in order. |
| `ControlInbox.ControlInbox.Expect` | packages/sync/src/controlInbox.ts:81-133 | Refused after a failure or beside a handler, served from the queue, or put in line. |
| `ControlInbox.ControlInbox.Fail` | packages/sync/src/controlInbox.ts:135-141 | Keeps the first failure and refuses everyone who waits. |
| `ControlInbox.ExpectMeans` | packages/sync/src/controlInbox.ts:81-133 | Refused exactly after a failure or beside a handler, and then nothing changes; answered at once with the oldest queued message, which leaves the queue; else promised to a new waiter, last in line. |
| `ControlInbox.RoutedMeans` | packages/sync/src/controlInbox.ts:47-59 | A handler gets the message, else the one who has waited longest for its kind, else it joins the end of its queue; no other kind is touched. |
| `ControlInbox.FailedMeans` | packages/sync/src/controlInbox.ts:135-141 | Everyone who waits is told this failure, in the order they came; the first failure is kept; queues and handlers stay. |
| `ControlInbox.ExpiredMeans` | packages/sync/src/controlInbox.ts:105-108 | A timer refuses its own waiter and nobody else, and nobody if its waiter is gone. |
| `ControlInbox.RegisteredMeans` | packages/sync/src/controlInbox.ts:62-73 | A new handler gets all that was queued for it, in order. |
| `ControlInbox.WaitersServedInTurn` | packages/sync/src/controlInbox.ts:51-55 | Over any run those who wait for a kind are served in the order in which they asked. |
| `ControlInbox.NoPromiseLost` | packages/sync/src/controlInbox.ts:104-133 | Over any run everyone who was promised a message still waits or was told how it ended. |
| `ControlInbox.EveryMessageOnceInOrder` | packages/sync/src/controlInbox.ts:34-141 | Over any run, per type: handed out followed by queued is accepted, in order; a queue excludes waiters and handler; no waiter is settled twice; after a failure nobody waits. |
| `ControlInbox.FailureIsTheFirst` | packages/sync/src/controlInbox.ts:135-145 | The failure shown is the first one reported, and it stays. |
| `MemoryLink.MemoryChannel.Send` | packages/transport/src/memoryLink.ts:27-52 | Counts and schedules the data, or does nothing once closed. |
| `MemoryLink.MemoryChannel.Deliver` | packages/transport/src/memoryLink.ts:36-47 | Takes the oldest data off the count, gives it to an open peer, and wakes every drain once the low mark is reached. |
| `MemoryLink.MemoryChannel.Drain` | packages/transport/src/memoryLink.ts:58-65 | At once at or below the low mark, else in line. |
| `MemoryLink.BufferBounded` | packages/transport/src/memoryLink.ts:27-65 | Under every interleaving with the serving loop the buffered amount is what is in flight, never above the larger mark by more than one frame, and a waiting drain means it is above the low mark. |
| `MemoryLink.RunInOrder` | packages/transport/src/memoryLink.ts:27-52 | While open, received followed by in flight is sent, and sent followed by still to send is everything. |
| `MemoryLink.FlowProgresses` | packages/sync/src/session.ts:416-425 | Every working step leaves less to do and one is possible while anything is left: no wake-up is lost. |
| `MemoryLink.RestingFlowDelivered` | packages/sync/src/session.ts:416-425 | A flow that was not closed and can do no more has delivered every frame in order. |
| `MemoryLink.RunCounts` | packages/transport/src/memoryLink.ts:27-35 | The total is what was sent; the peak is a level the buffer had, and none was higher. |
| `MemoryLink.NothingAfterClose` | packages/transport/src/memoryLink.ts:27-89 | Once closed a channel stays closed, sends nothing more and hands nothing more over. |
| `MemoryLink.RestingFlowIsQuiet` | packages/transport/src/memoryLink.ts:36-47 | Closed or not, a flow that can do no more has an empty buffer and nobody waiting. |
| `MemoryLink.GateWaitsIff` | packages/sync/src/session.ts:419-423 | The serving loop waits exactly when the buffer is above both marks. |
| `MemoryLink.ServingIsBoundedAndArrives` | packages/sync/src/session.ts:414-425 | For the wire frames of the slices the session cuts from any files: the buffer stays within one frame of the larger mark, and a resting open channel has delivered each file whole under its own transfer number. |
| `RateLimiting.RateLimiter.Take` | apps/signaling/src/rateLimit.ts:23-42 | The new table and the verdict, the clearing of a table that grew too large included. |
| `RateLimiting.TokensInRange` | apps/signaling/src/rateLimit.ts:30-41 | At nondecreasing times the tokens stay between zero and the capacity. |
| `RateLimiting.WindowBound` | apps/signaling/src/rateLimit.ts:23-42 | In any window the admitted calls number at most the capacity plus the rate per second times the seconds it lasts. |
| `RateLimiting.LevelIsTightestWindow` | apps/signaling/src/rateLimit.ts:30-34 | The lazily kept level is the room left in the tightest of all windows that end now. |
| `RateLimiting.RefusedIffAWindowIsFull` | apps/signaling/src/rateLimit.ts:36-42 | A call is refused exactly when admitting it would break the bound, rate spelled out, of some window ending with it. |
| `RateLimiting.SecondLater` | apps/signaling/src/rateLimit.ts:30-41 | An admitted call spends one token, a refused one none; a second later one second's rate is back, up to the capacity. |
| `RateLimiting.LazyIsContinuous` | apps/signaling/src/rateLimit.ts:30-34 | Refilling at any moment in between comes to the same. |
| `RateLimiting.VerdictIsPerKey` | apps/signaling/src/rateLimit.ts:23-42 | While the table is never cleared a verdict depends on that key's earlier calls alone. |
| `RateLimiting.NeverClearedIff` | apps/signaling/src/rateLimit.ts:26-29 | The table is never cleared if and only if no more than a hundred thousand different keys call. |
| `RateLimiting.TableWindowBound` | apps/signaling/src/rateLimit.ts:23-42 | Over any run of the table in which at most a hundred thousand different keys called before the last call: what one key was admitted in any window of time is at most the capacity plus the rate times its length. |
| `RateLimiting.ClearingForgives` | apps/signaling/src/rateLimit.ts:26-29 | After a clearing the next call of any key finds a full bucket. |
| `RateLimiting.OneKeyMoreBreaksEveryBound` | apps/signaling/src/rateLimit.ts:26-29 | With one key more there are runs, for every policy that admits anything, in which one key is admitted any number of times at a single moment. |
| `Protocol.CollectIds` | packages/core/src/protocol.ts:346-353 | Refused at the first entry that is not a bounded string, else the ids in order. |
| `Protocol.CollectEntries` | packages/core/src/protocol.ts:291-326 | The entries in order, or the error of the first bad one. |
| `Protocol.ParsedIsNormal` | packages/core/src/protocol.ts:178-467 | Whatever the JSON value, a message the parser lets through meets every bound. |
| `ProtocolRules.ParseFollows` | packages/core/src/protocol.ts:178-498 | The parser accepts exactly the values whose fields are in order, kind by kind and with every limit; what it yields says what the fields say, each default only for a missing or unusable field; refused as too much are exactly the oversized ones. |
| `ProtocolRules.ParsedIff` | packages/core/src/protocol.ts:178-498 | It yields a message if and only if the value is acceptable and says that message. |
| `ProtocolRules.EntriesFollow` | packages/core/src/protocol.ts:291-326 | A history is read entry by entry; its first bad entry decides how it is refused. |
| `Protocol.NormalRoundTrips` | packages/core/src/protocol.ts:162-215 | A message in normal form parses back to itself from its encoding. |
| `Protocol.ParsedRoundTrips` | packages/core/src/protocol.ts:162-215 | Parsing the encoding of any parsed message yields it again. |
| `Protocol.RoundTripIff` | packages/core/src/protocol.ts:162-215 | A message survives the trip if and only if it is in normal form. |
| `Protocol.EmptyNameIsReplaced` | packages/core/src/protocol.ts:253-256 | A message outside normal form: an empty vault name comes back as the default. |

## Left out

- `JointRuns.RestingRunFinishedIff`: messages travel as values, so the parser's limits (for instance a history of more than 100000 revisions) do not end a joint session; `Protocol` treats the limits on their own.
- `JointProgress.NoDeadlock`: both peers are honest and trust each other, no channel closes and no timer fires; a timeout or a closed channel ends a session in the failed phase, about which `SingleSession` speaks.
- `SingleSession.StoreKeptAlways`: a session is a sequence of whole handler calls and whole ingests; what a crash inside an ingest leaves is in `EngineRuns`.
- `SyncSessions.SyncSession.ServeNext`: the gate on the buffered amount is not part of the loop here; `MemoryLink` proves it with the serving loop and the channel alone. Without it a joint session has more schedules; those that show a drop deliver each frame before the next is pushed, so no gate would hold them up.
- `SyncSessions.SyncSession.Proceed`: the timeouts of the awaited messages and the record of the peer's head are not modelled.
- `JointSession.StepA`: nothing is delivered to a device that has not attached its handlers; what was sent to it waits, as in the app's hub. A bare memory channel would drop it.
- `RateLimiting.RateLimiter.Take`: tokens are real numbers; floating-point rounding is not modelled, here or in the bounds.
- `Store.MetadataStore.Begin`: the queue that serializes transactions and the joining of an inner transaction are not modelled; transactions do not nest.
- `Inbound.InboundTransfers.HandleHeader`: a header that declares zero chunks changes nothing here, as the constructor's assertion throws before the transfer is registered; where that exception surfaces is not modelled.
- `ControlInbox.ControlInbox.On`: handlers do not call back into the inbox while it hands them messages.
- Cryptography, the key derivation and the merging of vault contents: a digest function, a verdict and arbitrary bytes.
- Revision timestamps, bookmarks, peer-head bookkeeping, conflicts, the activity log, materializing the vault file: no property here depends on them.
- JSON text, SQL text, row mapping, files and renames: a value, a statement and a write are single steps.
- WebRTC, the signaling protocol beyond the rate limiter, the client key of a request, the user interface, pairing and trust storage.
