# Verified model of the hf-ipfs store

hf-ipfs shares revisions of Hugging Face repositories between peers. Each node keeps four coupled
things: a block store (directory and file nodes by CID), a table of nocopy references (chunk CID to
a byte range of a file), the cache directory on disk (blobs, snapshot links, refs, tree files), and
a mapping from commits to DAG roots. This project models the operations that change them and proves
what they keep.

Three promises tie the state together (`store.dfy`):

- `Honest`: a stored block is filed under the CID of its content;
- `RefsLive`: a reference reads back bytes that hash to its CID;
- `Closed`: everything reachable from a mapped root is in one of the two stores.

A node that keeps all three serves every block of every mapped revision, byte for byte
(`Store.MappedRevisionsServed`). `Runs` puts the operations together: a step of a run is what the
method's own contract promises of one whole ingest, pull, Hub download, linking or eviction, failed
ones included, and `Runs.Execute` and `PullRun.Run` show that executing commands is such a run. For
each step `Runs.StepKeepsPromisesIff` says exactly when it keeps the promises, by the state before it
and how far it gets, so along every guarded run they hold at every point (`RunsKeepPromises`,
`RunsServeMapped`), and the first step whose guard fails breaks one (`UnguardedStepBreaks`).
`Runs.SafeRunsKeepPromises` gives the same from conditions that do not depend on where a failing step
stops.

## How it is laid out

| files | subject |
|---|---|
| `content`, `graph`, `store`, `references` | CIDs, DAGs, reachability, the state and its promises, nocopy references |
| `walk`, `evict`, `evict_laws` | eviction as mark and sweep over two stores, the disk and the mapping |
| `order`, `paths`, `tree`, `ingest`, `share` | building the directory DAG, nocopy ingest, ingest of a snapshot |
| `peer`, `reconstruct`, `file_laws` | what a peer answers, the chunk download with rollback, what each outcome keeps |
| `pull_one`, `pull` | one file of a pull, the whole pull, and exactly what it adds to the stores |
| `protoio`, `blockstream`, `transport` | length-prefixed frames; client and server over two byte queues; a peer that answers over them |
| `endtoend` | ingest on one node, pull on another over the stream |
| `runs`, `witnesses` | runs of whole operations; inputs on which a promise fails |
| `one_file`, `plain_codec`, `share_witness`, `watch_witness` | a smallest revision, a codec, and nodes for which sharing and scanning have all they rely on |
| `names`, `dummy`, `sorting`, `snapshot`, `treejson` | the cache layout: names, hex commits, sorting, symlink tree, tree files |
| `watch` | the rescan loop |
| `fallback`, `pullrun`, `controls` | the Hub fallback, the whole pull with its events, the control connection |

Code that updates state step by step is a `method` on the class `Store.Node` (or on a small class for
the object the code mutates), tied by its `ensures` to a function or predicate on `State`; the laws
are lemmas about those.

## What is assumed

- A hash is a free constructor: CIDs, SHA-256 digests and link targets are equal exactly when codec
  and content are. The links of a CID's own content therefore form a finite DAG; what a store holds
  under a CID is arbitrary until `Honest` says otherwise, so the eviction laws hold on cyclic graphs.
- `Filestore.Put` does nothing when either store has the CID; deleting a block removes it from both.
- A fetched block is refused when its bytes do not hash to the CID asked for: that is what the code
  relies on `blocks.NewBlockWithCid` for; the library is not part of this model. `Honest`, and with it
  every promise about pulls, rests on that comparison: without it a fetched node could be filed under
  another CID.
- The importer's layout is a parameter; all that is assumed of it is that the in-order leaves of its
  result are the chunks (`Ingest.KeepsLeaves`).
- A UnixFS directory is a map from names to CIDs, listed by name.
- The encodings of a block request, of a CID and of a node are parameters with inverses
  (`Transport.Faithful`; `PlainCodec.FaithfulExists` writes one down). That the nodes below the root
  and the requests for up to 64 CIDs below it fit a frame are hypotheses where they matter
  (`EndToEnd.NodesFit`, `Transport.RequestsFit`); `ShareWitness.CanBeShared` meets all that sharing
  relies on.
- What peers, the Hub and failing system calls do is a parameter of each method: any answer, any
  failure point. Random suffixes are parameters too.

## What turned out to be conditional

The code is modelled as it is. Where a wish is false of it, the exact condition is proved:

- A pull records the root a peer names without looking whether the manifest covers it. The root is
  whole afterwards if and only if every node of its DAG was stored before, or is the root, on the way
  to a manifest file, or in a file that was not found on disk (`Pull.PulledWholeIff`); nodes whose
  storing fails, which is only logged, do not count. An empty manifest is accepted and maps a root
  with nothing below it (`Witnesses.EmptyManifestPull`). A file that is found on disk registers
  nothing, so its leaves may be missing (`Witnesses.CachedFilePull`).
- A failed pull keeps mapped revisions whole if and only if none of the chunks that the file it ended
  at had registered belongs to one (`Pull.PullDecidesClosed`). A file whose content does not match
  its manifest takes them all back (`Witnesses.MismatchedFile`).
- A rollback deletes every CID it registered, including one another revision had: mapped revisions
  stay whole if and only if none reaches one of them (`FileLaws.RollbackKeepsClosedIff`), and the
  references are restored if and only if none was there before (`References.RollbackRestoresIff`,
  `Witnesses.RollbackDropsEarlier`).
- A pull keeps references live if and only if each old one that is not taken back, into a blob that
  has been written, reads its own bytes in the content the manifest describes
  (`Pull.PullDecidesRefsLive`, `FileLaws.OutcomeKeepsRefsLiveIff` for one file). A blob name with other
  content kills one, from an honest peer and without a fault (`Witnesses.OverwritingPull`). A file that
  is rolled back kills none (`FileLaws.RollbackKeepsRefsLive`).
- The chunk size is not checked against the frame bound of 8388608 bytes, of which an answer spends
  one on its status. Sharing and pulling succeeds if and only if the chunk size is at most 8388607 or
  every file is shorter than 8388608 bytes (`EndToEnd.ShareAndPull`); with chunks of 8388608 bytes, or
  of 16 MiB, a file of that length cannot be sent (`EndToEnd.ChunkBoundIsSharp`).
- Eviction that stops after it has swept something leaves the revision mapped: mapped revisions stay
  whole if and only if what it has swept of its own revision was held by both stores
  (`EvictLaws.StoppedKeepsClosedIff`, `Witnesses.StoppedEviction`). A completed one always keeps the
  others whole.
- Eviction removes the snapshot directory without asking whether references point into it:
  references stay live if and only if those that do are swept too (`EvictLaws.EvictKeepsRefsLiveIff`,
  `Witnesses.SnapshotReferenceDies`).
- Blob removal looks at references only. A blob another manifest lists is lost if and only if no
  remaining reference points into it (`EvictLaws.SharedBlobLostIff`, `Witnesses.SurvivorsBlobLost`),
  and whether a blob outlives a list of evictions depends on their order
  (`EvictLaws.BlobOutlivesIff`, `EvictLaws.BlobLeakDependsOnOrder`). A scan can break a snapshot it
  keeps in this way (`Witnesses.SharedBlobBreaksKept`). It does not break a head that is not mapped
  yet and whose own chunks are referenced in the blob, for that one is mapped before anything in its
  directory is pruned (`Watch.Scan`, `WatchWitness.SharedHeadIsReady`).
- A manifest path is found in the built tree if and only if every directory on its way directly holds
  a file (`DirTree.LookupFindsIff`): the builder descends no further.
- An empty file's blob is written before its leaf is fetched, and the hash that is compared is the
  leaf's: it is the blob's if and only if the leaf is the empty one (`FileLaws.EmptyBlobMatchesIff`,
  `Witnesses.EmptyBlobDiffers`).
  The leaf is put into the block store unasked, so the two stores stay disjoint if and only if the
  leaf was not referenced (`FileLaws.OutcomeKeepsDisjointIff`, `Witnesses.EmptyLeafPut`).
- A failure after the rename leaves the blob in place, and one after an empty file's truncation
  leaves it empty; every other failure leaves the files as they were (`FileLaws.FailureLeavesFiles`).
- Directory names are reversible exactly on ids without `--` and `-/` (`Names.RepoDirNameRoundTrip`,
  `Names.UndecodableIdsCollide`).
- A tree file loses a recorded LFS hash if and only if the last file marked LFS of that path comes
  without a hash (`TreeJson.LfsHashClearedIff`, `TreeJson.LfsHashCleared`); a stripped manifest is
  restored exactly under the condition in `TreeJson.EnrichRestoresIff`, which is weaker than a hash
  on every LFS file.
- The Hub fallback trusts a file of the right length: what is proved of a blob after it is that it
  was there with that length, or verifies (`Fallback.FetchAll`).

## Model

| member | source | states |
|---|---|---|
| Store.ServableIsWhole | internal/evict/evict.go:163-189 | Being closed along the links of present blocks is the same as storing the whole DAG, on coherent stores: honest blocks, references for leaves only |
| Store.ClosedIffWhole | internal/evict/evict.go:163-189 | So mapped revisions are closed if and only if every CID of the DAG of a mapped root is stored |
| Store.LossDecidesClosed | internal/pull/pull.go:516-523 | While the mapping stays, mapped revisions stay whole if and only if no CID that was taken away lies in the DAG of one |
| Store.MappedRevisionsServed | internal/node/node.go:766-797 | A node that keeps the three promises answers every CID of every mapped revision with exactly its block |
| Store.ServedIsRight | internal/node/node.go:766-797 | A node with honest blocks serves the right block or none: absent exactly when neither store has it, broken exactly when its reference reads other bytes |
| Graph.ReachesSameEdges | internal/evict/evict.go:167-189 | What a CID reaches depends only on the links of what it reaches, both directions, on any link graph |
| Walk.Visit | internal/evict/evict.go:167-189 | On any graph, cyclic or shared, marks exactly what was marked plus what is reachable through present blocks (absent leaves included), and ends closed |
| Evict.MarkOthers | internal/evict/evict.go:86-100 | The kept set is exactly what the other mapped revisions reach |
| Evict.Sweep | internal/evict/evict.go:109-124 | Deletes exactly the target CIDs not kept, the reference first, else the block; a failing deletion leaves exactly the sweep of some of them and nothing else changed |
| Evict.ReferencedPaths | internal/evict/evict.go:193-218 | Exactly the files some remaining reference points into |
| Evict.RemoveBlobs | internal/evict/evict.go:126-145 | Removes exactly the listed blobs that no remaining reference points into; keeps all others byte for byte |
| Evict.Commit | internal/evict/evict.go:75-161 | On success the state is the declarative eviction; on failure exactly the CIDs of a set of doomed ones are swept and unreferenced listed blobs may be gone, and mapping, links, refs and trees are as they were; an undecodable root changes nothing; it succeeds unless a deletion fails |
| Evict.Repo | internal/evict/evict.go:53-72 | Evicts exactly the repository's entries, one after the other, counts them, fails on none, and stops at the first failure, with that entry still mapped and linked; succeeds when there are some, all roots decode and nothing fails |
| Evict.SelectedEntries | internal/evict/evict.go:53-72 | The entries picked are those of the repository id, each once |
| EvictLaws.SurvivorReachesSame | internal/evict/evict.go:83-124 | However far an eviction gets, every other revision reaches the same CIDs before and after |
| EvictLaws.SurvivorStoredSame | internal/evict/evict.go:83-145 | Each of them keeps its block, its reference and the bytes of the file that reference points into |
| EvictLaws.SurvivorServedSame | internal/evict/evict.go:83-145 | Each of them is served as before |
| EvictLaws.RevisionIsGone | internal/evict/evict.go:147-157 | After a completed eviction nothing of the revision is left: no mapping, no file or link in its snapshot, no tree file, no refs/main that names it |
| EvictLaws.OtherRevisionsStay | internal/evict/evict.go:126-157 | Mapping entries, trees, refs, links and files of every other revision are as they were, save blobs the evicted one lists |
| EvictLaws.EvictKeepsClosed | internal/evict/evict.go:83-157 | A completed eviction keeps every other mapped revision whole, whatever the stores hold |
| EvictLaws.EvictKeepsClosedIff | internal/evict/evict.go:109-149 | However far an eviction gets, mapped revisions stay whole if and only if the entry is gone or all it reaches is still stored |
| EvictLaws.StoppedKeepsClosedIff | internal/evict/evict.go:109-149 | An eviction that stops keeps mapped revisions whole if and only if all it has swept of its own revision was held by both stores |
| EvictLaws.EvictKeepsRefsLiveIff | internal/evict/evict.go:126-157 | References stay live if and only if none that remains points into the removed snapshot directory |
| EvictLaws.SharedBlobLostIff | internal/evict/evict.go:126-145 | A blob is lost if and only if the evicted revision lists it and no remaining reference points into it |
| EvictLaws.EvictAllRemovesGarbage | internal/evict/evict.go:53-72 | A list of evictions removes from both stores exactly what the evicted reach and no survivor does, measured in the initial store |
| EvictLaws.EvictOrderIrrelevant | internal/evict/evict.go:53-124 | Stores and mapping end the same in whatever order a set of revisions is evicted |
| EvictLaws.HeldTwiceSurvivesOnce | internal/evict/evict.go:113-123 | Disjoint stores are needed: a CID held by both survives one eviction that dooms it |
| EvictLaws.BlobOutlivesIff | internal/evict/evict.go:126-145 | A blob outlives a list of evictions exactly when at each eviction that lists it some reference into it is not garbage yet |
| EvictLaws.OwnedBlobsDoNotLeak | internal/evict/evict.go:126-145 | When every reference into a blob is reached, and only by revisions that list it, what is left of the blob does not depend on the order |
| EvictLaws.BlobLeakDependsOnOrder | internal/evict/evict.go:126-145 | Without that, the same two evictions in two orders leave different blobs |
| EvictLaws.SharedChunkExists | internal/evict/evict.go:126-145 | Such a state exists with all promises kept |
| References.ChunksTile | internal/pull/pull.go:548-555 | Chunk i occupies the bytes from the prefix sum before it to the one after it: no gap, no overlap |
| References.RegisteredDomain | internal/node/node.go:641-654 | Registering adds exactly the CIDs neither store had and changes no reference |
| References.RegisteredAt | internal/pull/pull.go:548-555 | A new reference is filed under the offset of the first occurrence of its CID |
| References.NewRefsLive | internal/node/node.go:638-654 | Every new reference reads back the bytes of its own CID, repeated chunks included |
| References.RegisteringKeepsRefsLive | internal/node/node.go:641-654 | Registering a file nothing else claimed keeps all references live |
| References.RollbackRestoresIff | internal/pull/pull.go:516-523 | Taking a registration back leaves the references as they were if and only if none of the CIDs was referenced |
| Remote.Peer.Fetch | internal/pull/pull.go:651-685 | Asked for at most 64 CIDs at once; the i-th result is what the peer sent for the i-th CID; it fails if and only if the stream broke in the batch; `Transport.FinishedIsFetched` ties this to the frames |
| Remote.Get | internal/pull/pull.go:704-725 | What the local store serves is taken without asking; else the peer is asked once, and only a block that hashes to the CID is taken; a node is kept, a leaf is not, nothing else changes |
| Remote.CollectLeaves | internal/pull/pull.go:616-634 | Appends the in-order leaves, always a prefix of them and never over the budget; on a resolvable DAG succeeds if and only if they fit |
| Reconstruct.StreamChunk | internal/pull/pull.go:535-556 | A right answer extends file, hash and references by one chunk at the running offset; anything else registers nothing |
| Reconstruct.StreamBatch | internal/pull/pull.go:535-556 | A batch of answers extends them chunk by chunk, up to the first failure |
| Reconstruct.FetchBatch | internal/pull/pull.go:525-561 | The same for the next 64 chunks, or those that are left, asked for at once |
| Reconstruct.StreamAll | internal/pull/pull.go:525-561 | Batch after batch up to the first failure; when it gets to the end the peer has delivered every chunk |
| Reconstruct.StreamChunks | internal/pull/pull.go:498-581 | Ends as published blob with prefix-sum references and matching size and hash, or rolled back, for every peer and failure point; when everything is delivered, hash and size decide |
| Reconstruct.Publish | internal/pull/pull.go:563-581 | Publishes only content with the manifest's SHA-256 and size |
| Reconstruct.Rollback | internal/pull/pull.go:516-523 | The temporary file and every CID registered in the attempt are gone, all else is as it was |
| Reconstruct.StoreEmpty | internal/pull/pull.go:464-496 | The empty-file path and its two failures, state by state |
| Reconstruct.RebuildChunks | internal/pull/pull.go:498-581 | Enumerates the chunks within the budget, then downloads them |
| Reconstruct.ReconstructFile | internal/pull/pull.go:422-582 | Every outcome with its whole state; a blob with the size and hash of the manifest, and no other, is taken as it is; progress counts the file's size; a described DAG from an honest peer always succeeds |
| FileLaws.OutcomeKeepsHonest | internal/pull/pull.go:422-582 | Every outcome keeps blocks honest |
| FileLaws.OutcomeKeepsOthersLive | internal/pull/pull.go:422-582 | After every outcome new references are live and no reference has died but those into the blob's path |
| FileLaws.OutcomeKeepsRefsLiveIff | internal/pull/pull.go:422-582 | So references stay live if and only if each surviving old one into the blob's path reads its own bytes afterwards |
| FileLaws.RollbackKeepsRefsLive | internal/pull/pull.go:516-523 | Every failure but the two late ones keeps references live, whatever they point into |
| FileLaws.OutcomeKeepsRefsLive | internal/pull/pull.go:422-582 | In particular when the blob path is not referenced for other content, failures included |
| FileLaws.RebuiltKeepsRefsLiveIff | internal/pull/pull.go:548-577 | Publishing over a referenced blob keeps references live if and only if each one into it reads its own bytes in the new content |
| FileLaws.FailureShrinks | internal/pull/pull.go:506-576 | After any failure nothing but fetched nodes was added, and no other file touched |
| FileLaws.FailureLeavesFiles | internal/pull/pull.go:506-576 | After every failure but two the disk is exactly as before |
| FileLaws.RebuiltHasBlob | internal/pull/pull.go:498-581 | The published blob is the concatenation of the leaves and has the manifest's size and hash |
| FileLaws.EmptyBlobMatchesIff | internal/pull/pull.go:464-496 | An empty file's blob matches its manifest if and only if the leaf is the empty one |
| FileLaws.OutcomeGains | internal/pull/pull.go:422-582 | What a success adds to the stores, exactly: the leaves and nodes of the file's DAG, or nothing when it was found on disk; and it takes nothing away |
| FileLaws.FailureLosesLeaves | internal/pull/pull.go:506-576 | A failure adds only nodes of the DAG and takes away exactly the chunks registered so far, whoever had them first |
| FileLaws.FailureWrites | internal/pull/pull.go:464-581 | Which failures have written the blob, and as what; all others leave it alone |
| FileLaws.OutcomeKeepsDisjointIff | internal/pull/pull.go:487-496 | The stores stay disjoint if and only if an empty file's leaf was not referenced |
| FileLaws.RollbackKeepsClosedIff | internal/pull/pull.go:516-523 | A rollback keeps mapped revisions whole if and only if none reaches a chunk it deletes |
| DirTree.TreeFinds | internal/ingest/ingest.go:156-198 | A built directory finds exactly its files and the subdirectories that directly hold files, a file first |
| DirTree.FindLinkFirst | internal/pull/pull.go:585-612 | The child that is found is the first entry of that name |
| DirTree.LookupFindsIff | internal/pull/pull.go:585-604 | Looking a manifest path up in the built tree finds its file if and only if every directory on the way directly holds a file |
| Paths.SplitJoin | internal/hfcache/cache.go:435-445 | Splitting a joined path gives the segments back |
| Paths.JoinSplit | internal/pull/pull.go:586-590 | Joining a split path gives the path back |
| Paths.SafePathIff | internal/hfcache/cache.go:435-445 | A manifest path is safe if and only if no segment is empty, a dot entry, or holds a backslash |
| Snapshot.SafeLeadsDown | internal/hfcache/cache.go:426-445 | A safe path leads only downward from wherever it starts; a safe blob name is a safe path of one segment |
| Order.LessIff | internal/hfcache/cache.go:477-492 | The order of names is decided at the first place where they differ |
| Ingest.ChunksJoin | internal/ingest/ingest.go:201-238 | The fixed-size chunks of a file join to the file |
| Ingest.ChunkAt | internal/ingest/ingest.go:201-238 | The i-th chunk is the i-th stretch of the chunk size, cut short only by the end of the file |
| Ingest.ChunkCount | internal/ingest/ingest.go:201-238 | There are as many chunks as the length over the chunk size, rounded up |
| Ingest.RootOverChunks | internal/ingest/ingest.go:201-238 | The root of a file is the layout over exactly these stretches, in order |
| Ingest.AddFileNocopy | internal/ingest/ingest.go:201-238 | References every chunk where it lies, stores the nodes, leaves the whole DAG stored; existing blocks and references stay |
| Ingest.BuildSubdirs | internal/ingest/ingest.go:162-178 | Builds exactly the directories right below that directly hold files, in any order |
| Ingest.BuildDir | internal/ingest/ingest.go:156-198 | The root is a function of the leaves alone (map order does not show) and is stored whole |
| Ingest.BuildTree | internal/ingest/ingest.go:130-154 | Succeeds if and only if every file is there; then the root is that of the leaf map, whole |
| Ingest.Run | internal/ingest/ingest.go:44-108 | Exactly when it succeeds; a commit is mapped only once its root is whole, failed or not the stores only grow, and none of the three promises is broken |
| Ingest.IngestKeepsPromises | internal/ingest/ingest.go:44-108 | Any step that grows the stores so and maps only a whole root keeps honesty, live references and whole revisions |
| Share.ReadEnriched | internal/ingest/ingest.go:47-60 | The ingested manifest has every visible file once read; a file with a recorded Xet hash has that hash and counts as LFS, as does one with a recorded LFS hash; unreadable snapshots are refused |
| Share.IngestRevision | internal/ingest/ingest.go:44-108 | Succeeds if and only if the snapshot is readable, shows a file and the commit is 40 hex; then the commit is mapped to a whole root, that of the files read; no promise is broken either way |
| PullOne.FindNode | internal/pull/pull.go:585-604 | Follows a path through directories only; the result is the lookup, and every node on the way is stored |
| PullOne.PullFile | internal/pull/pull.go:408-417 | What one file adds to the stores, exactly, and that its blob is then in place; on failure exactly what is lost and whether the blob was written; mapped revisions stay whole if and only if no chunk taken back is theirs |
| Pull.ReconstructAll | internal/pull/pull.go:370-418 | After success each CID is stored if and only if it was or the pull supplies it, and every blob is as expected; after failure exactly the chunks registered for the file it ended at are gone; mapped revisions stay whole if and only if none of those is theirs |
| Pull.PulledWholeIff | internal/pull/pull.go:400-417 | The root of a successful pull is whole if and only if every node of its DAG that the pull does not supply was stored before |
| Pull.PullDecidesClosed | internal/pull/pull.go:207-246 | Mapped revisions are whole after a pull if and only if, on success, the new root is covered, and on failure no chunk registered for the file it ended at is in a mapped revision |
| Pull.FailedPullKeepsClosed | internal/pull/pull.go:516-523 | A failed pull is harmless when no leaf of a file it had to fetch belongs to a mapped revision |
| Pull.PullDecidesRefsLive | internal/pull/pull.go:370-418 | References stay live through a pull if and only if each old one that is not taken back, into a blob that was written, reads its own bytes in the content its manifest describes |
| Pull.PullKeepsGuard | internal/pull/pull.go:209-228 | It is so when no blob of the manifests was referenced for other content; and then none is after the attempt, successful or not, so the next provider can be tried |
| Pull.HandleMap | internal/node/node.go:657-721 | Answers exactly for mapped valid commits it may serve, with the mapped root and manifest and the commit's dummy CID; the asker accepts that answer exactly when root and names are usable |
| Pull.AcceptableIff | internal/pull/pull.go:260-325 | Which answers are accepted, by their fields: the dummy CID may be left out, every path segment and blob name is safe |
| Pull.PullFrom | internal/pull/pull.go:207-246 | An answer that refuses, is about another commit, carries a bad dummy CID or one of another commit, names no root, or has a path segment or blob name that is unsafe changes nothing, by the fields of the answer; else the whole effect on stores, files and references, the mapping recorded exactly on success, and exactly when mapped revisions are whole afterwards; a favourable peer always succeeds |
| EndToEnd.FileRootDescribed | internal/ingest/ingest.go:201-238 | The DAG of a file describes the file: its leaves join to the bytes |
| EndToEnd.TreeSupplied | internal/pull/pull.go:400-417 | A pull of an ingested manifest into a node that has none of its files supplies the whole DAG |
| EndToEnd.ChunkLengths | internal/ingest/ingest.go:216-237 | All chunks of a file fit an answer frame if and only if the chunk size or the file is below the bound |
| EndToEnd.ChunkBoundIsSharp | internal/protoio/protoio.go:17-26 | The bound is 8388607 bytes: one byte more, or 16 MiB, and a file of that length has a chunk that cannot be framed |
| EndToEnd.CameMeansFit | internal/node/node.go:766-797 | Conversely, what a pull got over the stream did fit |
| EndToEnd.PullOver | internal/pull/pull.go:207-246 | The puller's half, from a whole store behind the stream: it succeeds if and only if the chunks fit; then the blobs equal the sources and everything is served |
| EndToEnd.ShareAndPull | internal/pull/pull.go:370-582 | Ingest on one node and pull over the block stream on another that has none of it: succeeds if and only if no chunk is too long for a frame; then same root mapped, every blob equal to its source, every block served from the puller's own stores, and every batch a pull may ask for is delivered over the stream |
| ShareWitness.CanBeShared | internal/ingest/ingest.go:44-108 | What sharing relies on can be met, for any file of one chunk, and then the chunks fit if and only if the file is shorter than 8388608 bytes: both outcomes occur |
| Runs.StepKeepsCoherent | internal/pull/pull.go:704-725 | Every step of every operation keeps blocks honest and references for leaves only |
| Runs.StepDecidesRefsLive | internal/evict/evict.go:126-157 | For each whole operation, when exactly references stay live, by the state before and how far it gets |
| Runs.StepDecidesClosed | internal/pull/pull.go:207-246 | For each whole operation, when exactly mapped revisions stay whole, by the state before and how far it gets |
| Runs.StepKeepsPromisesIff | internal/pull/pull.go:84-257 | A step keeps the three promises if and only if its guard holds in the state before it |
| Runs.RunsKeepPromises | internal/pull/pull.go:84-257 | Along every guarded run of ingests, pulls, Hub downloads, linkings and evictions, failed ones included, the three promises hold at every point |
| Runs.UnguardedStepBreaks | internal/pull/pull.go:84-257 | And no further: the first step whose guard fails breaks a promise |
| Runs.SafeIsGuarded | internal/pull/pull.go:207-246 | A guard holds, wherever a failing step stops, when a simpler condition on the state before does |
| Runs.SafeRunsKeepPromises | internal/pull/pull.go:84-257 | Along every run whose steps are safe in the states they start from, however far they get, the promises hold at every point |
| Runs.RunsServeMapped | internal/node/node.go:766-797 | At every point of a guarded run each block of each mapped revision is served byte for byte |
| Runs.Perform | internal/controls/controls.go:136-267 | Carrying out one command extends the run by the steps of that command, which succeed when they should |
| Runs.Execute | internal/controls/controls.go:136-267 | Carrying out any list of commands is a run, the steps of one command after those of another, so the promises are kept to the end when its steps are guarded |
| Dummy.CommitRoundTrip | internal/dummy/dummy.go:32-61 | The commit comes back from its dummy CID in lower case |
| Dummy.OnlyDummiesRead | internal/dummy/dummy.go:48-61 | A commit is read back from a CID if and only if it is the dummy CID of one |
| Dummy.SameDummyIff | internal/dummy/dummy.go:32-46 | Two commits share a dummy CID if and only if they differ in letter case at most |
| Dummy.ValidCommitIff | internal/dummy/dummy.go:32-46 | A commit has a dummy CID if and only if it is 40 hexadecimal digits |
| ProtoIO.HeaderRoundTrip | internal/protoio/protoio.go:23-54 | Four bytes, most significant first; the length comes back for every 32-bit value |
| ProtoIO.ParseArriving | internal/protoio/protoio.go:40-54 | However many bytes of a frame and its successors have arrived, the reader waits or gets exactly that frame and leaves exactly the rest |
| ProtoIO.FrameRoundTrip | internal/protoio/protoio.go:23-54 | A written frame is read back and what follows is untouched |
| ProtoIO.Stream.WriteFrame | internal/protoio/protoio.go:23-37 | Appends exactly one frame, or nothing when the payload is over the bound |
| ProtoIO.Stream.ReadFrame | internal/protoio/protoio.go:40-54 | Takes exactly the first frame off, and refuses short or oversized ones |
| BlockStream.StepKeepsInv | internal/node/node.go:741-797 | Any step of client, server or transport keeps the byte queues aligned with the batch under way |
| BlockStream.FinishedBatchesRight | internal/pull/pull.go:651-685 | In every interleaving, the i-th result of a finished batch is what the store has for its i-th CID; no batch of more than 1024 finishes, and none with a read that fails or a block that does not fit a frame |
| BlockStream.RequestTaken | internal/node/node.go:745-764 | A request for up to 1024 names is served, a longer one stops the server |
| BlockStream.AnswerWritten | internal/node/node.go:766-797 | The answer is a frame of a zero and the bytes, or of a one for a name that is not there; a read failure or too long a block stops the server |
| BlockStream.AnswerTaken | internal/pull/pull.go:671-685 | The client takes a first byte of one for a missing block, and what follows any other for the block |
| BlockStream.LongFramesRefused | internal/protoio/protoio.go:40-54 | A frame announced over the bound ends the stream on either side |
| BlockStream.StepKeepsHealthy | internal/node/node.go:729-798 | With batches and blocks within bounds neither side ever gives up |
| BlockStream.NeverStuck | internal/node/node.go:729-798 | Until all batches are done some step can be taken |
| BlockStream.StepLowersRank | internal/node/node.go:729-798 | Every step lowers a well-founded rank, so every schedule ends |
| BlockStream.Drive | internal/pull/pull.go:651-685 | Whatever step is picked each time, the system ends with all the right results |
| Transport.ServedIsSentIff | internal/node/node.go:782-797 | A stored block is sent right if and only if it fits an answer frame; what is not stored is said to be missing; a block that does not fit, and a read that fails, end the stream |
| Transport.FetchIsStream | internal/pull/pull.go:651-685 | A fetch from the seeder's store succeeds if and only if the server can answer every CID of the batch, with the blocks of those answers |
| Transport.FinishedIsFetched | internal/pull/pull.go:651-685 | In every interleaving of client and server, the results of a finished batch are those the fetch promises, and a batch whose fetch fails never finishes |
| Transport.BatchesDeliverable | internal/pull/pull.go:525-531 | When all blocks below a root are served and fit, every batch of at most 64 CIDs below it can be asked for and answered |
| Transport.FetchByStream | internal/pull/pull.go:651-685 | Driven by any schedule, a batch that fits a request and can be answered ends with what the fetch promises |
| PlainCodec.FaithfulExists | internal/node/node.go:741-797 | There is a codec with the three inverses, short for two given CIDs and one node |
| Names.DashesRoundTrip | internal/hfcache/cache.go:125-128 | Decoding undoes encoding if and only if the id has neither "--" nor "-/" |
| Names.RepoDirNameRoundTrip | internal/hfcache/cache.go:100-108 | A directory name gives back id and type if and only if the id is decodable and the type known |
| Names.DirNameRoundTrip | internal/hfcache/cache.go:171-201 | Every directory name that decodes is the name of what it decodes to |
| Names.DirNames | internal/hfcache/cache.go:46-57 | The directory prefix of each type; an unknown type is named like a model |
| Names.RepoDirNameInjective | internal/hfcache/cache.go:126-128 | Two repositories with decodable ids never share a directory |
| Names.UndecodableIdsCollide | internal/hfcache/cache.go:126-128 | Undecodable ids can share one |
| TreeJson.WriteTree | internal/hfcache/tree.go:56-96 | Every path recorded for the revision stays recorded: unchanged without a file of its path, with its Xet hash always, with its LFS data unless an LFS file comes; the paths are those and the manifest's; the records of other revisions stay |
| TreeJson.RecordGrows | internal/hfcache/tree.go:61-88 | What a merge does to one record: nothing without a file of its path; a Xet hash is never lost, LFS data only to an LFS file |
| TreeJson.MergedAt | internal/hfcache/tree.go:69-88 | Field by field, what a path's record holds after a write: the last file that has the datum, else what was recorded |
| TreeJson.WriteTreeIdempotent | internal/hfcache/tree.go:56-96 | Writing the same manifest again changes nothing |
| TreeJson.WriteTreeKeepsMetadata | internal/hfcache/tree.go:49-88 | No path and no Xet hash is ever cleared, and no LFS hash by manifests that carry them |
| TreeJson.LfsHashClearedIff | internal/hfcache/tree.go:69-88 | A recorded LFS hash is cleared if and only if the last LFS file of that path comes without one |
| TreeJson.LfsHashCleared | internal/hfcache/tree.go:69-88 | Such a manifest exists for every recorded hash |
| TreeJson.WritesKeepMetadata | internal/hfcache/tree.go:49-88 | The same over any sequence of writes |
| TreeJson.EnrichFromTree | internal/hfcache/tree.go:124-141 | Each entry becomes the enriched one, in place |
| TreeJson.EnrichRestoresIff | internal/hfcache/tree.go:116-141 | The exact condition under which a stripped manifest is restored |
| Sorting.SortManifests | internal/hfcache/cache.go:485-491 | A permutation, ordered by path |
| Snapshot.RelativeResolves | internal/hfcache/cache.go:352-355 | Following the relative path between two places leads to the second |
| Snapshot.RelativeStaysBelow | internal/hfcache/cache.go:352-355 | On the way it never leaves the directory they share |
| Snapshot.LinkLeadsToBlob | internal/hfcache/cache.go:343-370 | At any depth the link is ../ per level and blobs/name, resolves to the blob and stays inside the repository |
| Snapshot.ResolveSteps | internal/hfcache/cache.go:343-370 | A link target is followed segment by segment: ".." goes up and stays at the top, "." stays, any other goes down |
| Snapshot.ClashIff | internal/hfcache/cache.go:343-362 | One path is in the way of another if and only if it continues the other after a slash |
| Snapshot.WriteLink | internal/hfcache/cache.go:339-370 | Places one link exactly when name, path, blob and place allow it, over whatever link or file is there |
| Snapshot.WriteSnapshot | internal/hfcache/cache.go:331-378 | On success exactly the links of the manifest, the merged tree, and refs/<ref>, refs/main when none is named, at the commit, which is the head then; a placeable manifest always succeeds; a failure moves no ref and has placed exactly the first of the links |
| Snapshot.RewriteChangesNothing | internal/hfcache/cache.go:356-366 | A second write changes no link |
| Snapshot.WrittenLeadToBlobs | internal/hfcache/cache.go:339-370 | After a write every manifest path leads to a blob |
| Snapshot.ReadSnapshot | internal/hfcache/cache.go:208-286 | Succeeds if and only if every visible entry leads to a file; then the manifest has exactly the paths there that are not bookkeeping, each once, with the length and hash of the file in its place or of the blob its link leads to, sorted |
| Snapshot.BookkeepingIff | internal/hfcache/cache.go:218-236 | An entry is bookkeeping if and only if .git or .cache is a directory above it, or its name at the top; .gitattributes is content |
| Snapshot.CompleteIff | internal/hfcache/cache.go:290-325 | A snapshot is finalized if and only if it shows something and every link in it leads to a blob that is there |
| Snapshot.ReadingUnique | internal/hfcache/cache.go:208-286 | Only one manifest can be read from the same files |
| Snapshot.WriteThenRead | internal/hfcache/cache.go:208-378 | Reading after writing gives back the same paths and blob names, with the blobs' sizes and hashes, sorted by path |
| Watch.EvictSources | internal/evict/evict.go:126-157 | Pruning one entry leaves every other snapshot's entries, and their sources but for blobs the pruned entry lists that nothing references then |
| Watch.PruneStep | internal/watch/watch.go:131-144 | On a node that is ready, pruning an entry whose content is missing, once the finalized heads in its directory are mapped, keeps complete snapshots, finalized heads, kept entries and readiness |
| Watch.HeadGetsMapped | internal/watch/watch.go:223-231 | Mapping a head protects the blobs that its own DAG holds references into |
| Watch.ShareStep | internal/watch/watch.go:223-231 | So does mapping a finalized head, and the scan's conditions carry over |
| Watch.PruneOrphans | internal/watch/watch.go:125-145 | Never maps anything, changes nothing when all entries are complete, failing evictions or not; on a ready node whose heads are mapped, with none failing, every mapped revision is complete in the cache afterwards |
| Watch.TryIngest | internal/watch/watch.go:200-235 | Keeps entries filed and blocks honest whatever fails; on a ready node a commit that refs/main names and that is finalized is mapped afterwards, one whose content is lost is not, and without a head no revision of the repository whose content is lost; a settled node is not changed |
| Watch.Scan | internal/watch/watch.go:108-121 | Keeps entries filed and blocks honest whatever fails; on a ready node one scan reaches a fixed point: a shareable commit that refs/main of a listed repository names is mapped, any other entry stays exactly when its directory exists and its snapshot is complete; a scan of a settled node changes nothing |
| Watch.ListedIff | internal/hfcache/cache.go:171-200 | A repository is listed if and only if its id reads back and one of its three directories is there |
| Watch.ListedHasDir | internal/watch/watch.go:238-246 | A listed id is looked for in the model directory first, then the dataset's, then the space's |
| Fallback.ManifestFromRevision | internal/pull/hffallback.go:197-229 | Refuses the list if and only if some name or size is bad; else every file in order as the Hub describes it, an LFS file by its LFS size and hash, with the total |
| Fallback.FetchBlob | internal/pull/hffallback.go:115-185 | A blob of the declared length is left alone; otherwise it publishes exactly content of the declared size whose SHA-256, or git blob id, matches; on any failure the blob path is untouched and the temporary file gone |
| Fallback.FetchAll | internal/pull/hffallback.go:76-81 | To the end or not: every blob with the declared size was there or verifies, what each blob holds is what the first of its files to miss the size downloaded, no other file is touched, and progress adds up to the total |
| Fallback.PullFromHub | internal/pull/hffallback.go:25-101 | Downloads, links and ingests, each as its step says; succeeds when the Hub lists good files, all arrive and can be placed; mapped revisions stay whole throughout, references stay live when nothing referenced is overwritten; after success the commit is mapped to a whole root, every listed file is linked and has its size |
| PullRun.QuietTwice | internal/pull/pull.go:209-255 | Reports compose: progress, then a report that ends in one terminal event, ends in it |
| PullRun.Candidates | internal/pull/pull.go:166-200 | Dialed peers first, then those found; nothing but progress is reported |
| PullRun.Attempt | internal/pull/pull.go:209-241 | One attempt is a pull step; it keeps references live and the guard for the next attempt, changes nothing in the snapshot, succeeds with a helpful provider and delivers the described blobs |
| PullRun.TryProvider | internal/pull/pull.go:209-255 | Delivers exactly when it reports done, and then every mapped file is linked and every blob is as described; references stay live and the guard for what comes next stays, whatever its end; a helpful provider is never unusable, and one whose manifest can be placed is never stuck at the linking; what it does extends the run by pulls and links only |
| PullRun.PullFromPeers | internal/pull/pull.go:157-257 | One helpful candidate anywhere in the list is enough to get to the linking, and where every acceptable manifest can be placed, to deliver; over all failed attempts before it references stay live, and what is delivered is as described; only pulls and links are done |
| PullRun.Run | internal/pull/pull.go:84-152 | Succeeds exactly when it reports done, last and once, across peers, fallback and relink; the revision is then available; a complete one is left alone; with peers only nothing is downloaded from the Hub, with the Hub only nothing is pulled; a helpful candidate is pulled from, and it succeeds when the peers can deliver what can be placed, or the Hub may be used and all it lists arrives; from a first state that is guarded for all it may write, references stay live however it ends and what it obtains has its contents; what it does is a run, so a guarded one keeps the three promises |
| PullRun.PullableIsDone | internal/pull/pull.go:84-152 | A pull for which there is a commit and a way to it succeeds |
| PullRun.HubStillDelivers | internal/pull/pull.go:134-152 | Failed attempts with peers leave the fallback what it needs, when they can only have placed links of the same files |
| Controls.Handle | internal/controls/controls.go:136-267 | Every command's reply ends in exactly one terminal event, and done is sent only when the command's effect is in the state; it is sent whenever the command can be carried out: for an ingest exactly when the snapshot of the named commit, or of the one the ref names, shows readable files; for an eviction when the root decodes and nothing fails; for a pull when there is a way to the commit |
| Controls.Call | internal/controls/controls.go:47-81 | Succeeds if and only if the first terminal event is done and no event up to it was rejected |
| Controls.CallTrustsOnlyDone | internal/controls/controls.go:57-80 | However much of a reply gets through, the caller reports success exactly when all of it did and the server said done |
| Witnesses.EmptyManifestPull | internal/pull/pull.go:281-295 | On any node that keeps the promises and lacks a node below the root, a pull with an empty manifest succeeds and maps a root that is not whole |
| Witnesses.CachedFilePull | internal/pull/pull.go:445-455 | A pull whose only file is found on disk maps a root whose leaf is missing |
| Witnesses.CachedFileExists | internal/pull/pull.go:445-455 | A node where it happens, keeping all promises |
| Witnesses.MismatchedFile | internal/pull/pull.go:516-569 | A download that ends in a hash mismatch deletes a chunk of a mapped revision |
| Witnesses.MismatchedFileExists | internal/pull/pull.go:516-569 | A node and a file where it happens |
| Witnesses.OverwritingPull | internal/pull/pull.go:548-577 | On a node that keeps all promises, a pull of another revision with other content under the same blob name, from an honest peer and without a fault, succeeds and kills the first one's reference |
| Witnesses.EmptyBlobDiffers | internal/pull/pull.go:464-496 | On any honest node an empty file whose manifest names the hash of a leaf that is not empty counts as pulled, with an empty blob |
| Witnesses.RollbackDropsEarlier | internal/pull/pull.go:516-523 | Taking back a registration that found its chunk referenced loses that reference |
| Witnesses.EmptyLeafPut | internal/pull/pull.go:487-489 | The leaf of an empty file ends in both stores when it was referenced |
| Witnesses.EmptyLeafExists | internal/pull/pull.go:487-489 | A node where it was, keeping all promises |
| Witnesses.StoppedEviction | internal/evict/evict.go:109-149 | An eviction that cannot delete the mapping after its sweep leaves the revision mapped and broken |
| Witnesses.StoppedEvictionExists | internal/evict/evict.go:109-149 | Any revision mapped alone is one |
| Witnesses.SnapshotReferenceDies | internal/evict/evict.go:151-153 | A reference into the evicted snapshot dies though another revision needs it |
| Witnesses.SurvivorsBlobLost | internal/evict/evict.go:126-145 | A blob that a surviving revision lists is removed |
| Witnesses.SharedBlobBreaksKept | internal/watch/watch.go:131-144 | Pruning a vanished entry makes a kept snapshot incomplete when they share an unreferenced blob |
| WatchWitness.SharedHeadIsReady | internal/watch/watch.go:108-145 | A node with a finalized head not mapped yet that shares a referenced blob with a vanished mapped revision is ready to be scanned, though no kept entry protects the blob |

## Left out

- libp2p host, DHT, relays, connection limits, deadlines, HTTP client, tokens, control socket, daemon
  forking, CLI: library plumbing and I/O. Announcing a commit is a yes/no parameter.
- dag-pb, JSON, protobuf and multihash bytes: blocks are values, codecs are parameters with inverses.
  The length of an encoded CID or node is not modelled, so that requests and nodes fit a frame is a
  hypothesis (see above).
- UnixFS HAMT sharding and the balanced layout: see the assumptions above.
- File modes, mtimes, symlink races, crashes in the middle of an operation, and concurrent requests:
  operations run one after the other, with failure points.
- The name of a file that is no blob of its repository is the hex of its content, where the code uses
  the hex of its digest; both are injective under the hash assumption.
- Snapshot.ReadSnapshot: symlinks are resolved when they lead into a blobs directory; links to other
  places count as broken.
- References are read from regular files; the model has no reference through a symlink.
- The watcher's debounce map and file-system events: they only decide when a repository is tried.
- Address ordering, size formatting, source and type parsing: easy members.
- Watch.Scan: the fixed point is promised for a ready node and evictions that do not fail: an entry
  filed under a listed repository's head is that repository's, and no pruned entry lists a blob of a
  complete snapshot that neither a kept entry's reference nor, for a head about to be mapped, one of
  its own DAG protects. `Witnesses.SharedBlobBreaksKept` shows the second is needed.
- PullRun.Run: assumes that writes to the mapping store and to the control connection succeed.
- Ingest.Run: the entry's recorded time, origin and total size are not modelled.
