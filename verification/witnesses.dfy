/** Inputs on which the promises fail: each state keeps them all, and one operation breaks one. */
module Witnesses {
  import opened Content
  import opened Dummy
  import opened Names
  import opened Store
  import opened References
  import opened Remote
  import opened DirTree
  import opened Paths
  import opened Reconstruct
  import opened FileLaws
  import opened OneFile
  import opened PullOne
  import opened Pull
  import Evict
  import EvictLaws
  import Fallback
  import Runs
  import Snapshot
  import Watch

  // ---- A revision with one file ----

  const LEAF := Hash(Raw([1]))
  const FILE := FileManifest("a", "b", 1, Sha256([1]), false, "", None)

  const LEAVES: map<Rel, Cid> := map[["a"] := LEAF]

  function Root(): Cid {
    DirCid(LEAVES, [])
  }

  lemma RootIs()
    ensures Lookup(Root(), ["a"]) == Some(LEAF) && Split("a") == ["a"] && !IsRaw(Root())
    ensures forall x :: InDag(x, Root()) <==> x == Root() || x == LEAF
  {
    RootFacts(LEAF);
  }

  function Dir(): string {
    RepoDirName("m", Model)
  }

  function EntryOf(commit: string): Entry {
    Entry("m", Model, commit, Some(Root()), [FILE])
  }

  /** The file is on disk and referenced at path, and mapped for the given commits. */
  ghost predicate Holds(s: State, path: Path, commits: set<string>) {
    && s.blocks == map[Root() := Root().content] && s.refs == map[LEAF := Ref(path, 0, 1)]
    && path in s.disk && s.disk[path] == [1]
    && s.mapping.Keys == commits && forall c | c in commits :: s.mapping[c] == EntryOf(c)
  }

  /** Such states exist, with any files and links beside. */
  lemma Holding(path: Path, commits: set<string>, disk: Disk, links: map<Path, seq<string>>) returns (s: State)
    ensures Holds(s, path, commits) && s.disk == disk[path := [1]] && s.links == links
  {
    s := State(map[Root() := Root().content], map[LEAF := Ref(path, 0, 1)], disk[path := [1]],
      map c | c in commits :: EntryOf(c), links, map[], map[]);
  }

  lemma HoldsKeepsPromises(s: State, path: Path, commits: set<string>)
    requires Holds(s, path, commits)
    ensures Runs.Promises(s) && Coherent(s) && Filed(s)
    ensures Disjoint(s) && forall c | c in commits :: Evict.ReachedBy(s, c, LEAF)
  {
    RootIs();
    assert s.disk[path][0..1] == [1];
    LiveIsCoherent(s);
    ClosedIffWhole(s);
    forall c | c in commits ensures Evict.ReachedBy(s, c, LEAF) { EvictLaws.DagIffReached(s, Root(), LEAF); }
  }

  /** Everything is answered with the right block. */
  function Supplied(k: nat, c: Cid): Answer {
    Sent(c.content)
  }

  // ---- Pulls that map a root that is not whole ----

  /** A manifest that covers nothing is accepted, and maps a root of which only the top node was
      fetched: on any node that keeps the promises and does not happen to have the rest. */
  method EmptyManifestPull(n: Node, repoId: string, t: RepoType, commit: string, root: Cid, below: Cid, budget: nat,
      suffix: string)
    requires Runs.Promises(n.View()) && ValidCommit(commit)
    requires InDag(below, root) && below != root && !Has(n.View(), below)
    modifies n
    ensures commit in n.mapping && n.mapping[commit].actual == Some(root)
    ensures Honest(n.View()) && RefsLive(n.View()) && !Closed(n.View())
  {
    ghost var s := n.View();
    LiveIsCoherent(s);
    var resp := MapResponse(true, commit, NoDummy, Some(root), []);
    var peer := new Peer(Supplied);
    var state := new Transfer();
    var ok, _ := PullFrom(n, repoId, t, commit, resp, peer, state, budget, suffix, NO_FAULTS);
    assert !Pull.Supplied(s.disk, RepoDirName(repoId, t), root, [], 0, {}, below);
  }

  /** A file that is found on disk is not registered, so its leaves are missing from the root that
      is mapped: on any node that keeps the promises and has the file, but not its leaf. */
  method CachedFilePull(n: Node, commit: string, suffix: string)
    requires ValidCommit(commit) && Runs.Promises(n.View()) && HasBlob(n.disk, Dir(), FILE) && !Has(n.View(), LEAF)
    modifies n
    ensures commit in n.mapping && n.mapping[commit].actual == Some(Root()) && !Closed(n.View())
  {
    ghost var s := n.View();
    LiveIsCoherent(s);
    OneFileIsFavourable(commit);
    CachedIsNotCovered(s, suffix);
    var resp := MapResponse(true, commit, NoDummy, Some(Root()), [FILE]);
    var peer := new Peer(Supplied);
    var state := new Transfer();
    var ok, _ := PullFrom(n, "m", Model, commit, resp, peer, state, 1, suffix, NO_FAULTS);
  }

  lemma CachedIsNotCovered(s: State, suffix: string)
    requires HasBlob(s.disk, Dir(), FILE) && !Has(s, LEAF)
    ensures TempNamesFree(Dir(), [FILE], suffix) && !Covered(s, Dir(), Root(), [FILE], {})
  {
    RootIs();
    PartIsNotBlob(Dir(), "b", suffix);
    HasBlobIsSummary(s.disk, Dir(), FILE);
    assert !FreshAt(s.disk, Dir(), [FILE], 0);
    assert !SuppliedBy(s.disk, Dir(), Root(), [FILE], 0, {}, LEAF);
  }

  /** Such a node. */
  lemma CachedFileExists() returns (s: State)
    ensures Runs.Promises(s) && HasBlob(s.disk, Dir(), FILE) && !Has(s, LEAF)
  {
    s := State(map[], map[], map[BlobPath(Dir(), "b") := [1]], map[], map[], map[], map[]);
  }

  lemma OneFileIsFavourable(commit: string)
    ensures Acceptable(commit, MapResponse(true, commit, NoDummy, Some(Root()), [FILE]))
    ensures Favourable(Supplied, Root(), [FILE], 1, NO_FAULTS)
  {
    RootIs();
    assert Leaves(LEAF) == [LEAF];
    assert Payload([LEAF]) == [1] by { assert [LEAF][..0] == []; }
  }

  // ---- A rollback that takes a mapped chunk ----

  /** A file whose only chunk belongs to a mapped revision, but whose manifest has another hash:
      the download ends in the rollback, which deletes the chunk. */
  method MismatchedFile(n: Node, repoDir: string, f: FileManifest, c: Cid, suffix: string)
    requires Runs.Promises(n.View()) && IsRaw(c) && BelowMapped(n.View(), c)
    requires Wanted(f, n.disk, repoDir) && f.sha256 != Sha256(Data(c))
    modifies n
    ensures n.mapping == old(n.mapping) && !Closed(n.View())
  {
    ghost var s := n.View();
    LiveIsCoherent(s);
    assert Leaves(c) == [c];
    assert Payload([c]) == Data(c) by { assert [c][..0] == []; }
    var peer := new Peer(Supplied);
    var state := new Transfer();
    ghost var mid, k;
    var r;
    r, mid, k := ReconstructFile(n, repoDir, f, c, peer, state, 1, suffix, NO_FAULTS);
    MismatchLoses(s, n.View(), repoDir, f, c, suffix, mid);
  }

  lemma MismatchLoses(s: State, s': State, repoDir: string, f: FileManifest, c: Cid, suffix: string, mid: State)
    requires Coherent(s) && BelowMapped(s, c) && Leaves(c) == [c]
    requires FileOutcome(s, s', repoDir, f, c, suffix, Failed(Hashing), mid, 1)
    ensures s'.mapping == s.mapping && !Closed(s')
  {
    OutcomeFrame(s, s', repoDir, f, c, suffix, Failed(Hashing), mid, 1);
    OutcomeKeepsHonest(s, s', repoDir, f, c, suffix, Failed(Hashing), mid, 1);
    FailureShrinks(s, s', repoDir, f, c, suffix, Failed(Hashing), mid, 1);
    assert [c][..1] == [c] && c in CidSet([c]);
    assert !Has(s', c);
    ClosedIffWhole(s');
    assert BelowMapped(s', c);
  }

  /** Such a node, with a file that is wanted. */
  lemma MismatchedFileExists(commit: string) returns (s: State, f: FileManifest)
    ensures Runs.Promises(s) && BelowMapped(s, LEAF) && Wanted(f, s.disk, Dir()) && f.sha256 != Sha256(Data(LEAF))
  {
    s := Holding(HostPath("h"), {commit}, map[], map[]);
    f := FileManifest("a", "x", 1, Sha256([2]), false, "", None);
    HoldsKeepsPromises(s, HostPath("h"), {commit});
    RootIs();
    assert s.mapping[commit] == EntryOf(commit);
  }

  /** Taking back a registration that found the chunk referenced loses that reference. */
  lemma RollbackDropsEarlier(s: State, path: Path, commits: set<string>, blob: Path)
    requires Holds(s, path, commits)
    ensures Registered(s.blocks, s.refs, blob, [LEAF]) - CidSet([LEAF]) != s.refs
  {
    RollbackRestoresIff(s.blocks, s.refs, blob, [LEAF]);
    assert LEAF in [LEAF] && LEAF in s.refs;
  }

  // ---- A pull over a referenced blob ----

  const NEW_LEAF := Hash(Raw([2]))
  const NEW_LEAVES: map<Rel, Cid> := map[["a"] := NEW_LEAF]
  const NEW_FILE := FileManifest("a", "b", 1, Sha256([2]), false, "", None)

  function NewRoot(): Cid {
    DirCid(NEW_LEAVES, [])
  }

  lemma NewRootIs()
    ensures Lookup(NewRoot(), ["a"]) == Some(NEW_LEAF) && Split("a") == ["a"] && !IsRaw(NewRoot())
    ensures forall x :: InDag(x, NewRoot()) <==> x == NewRoot() || x == NEW_LEAF
  {
    RootFacts(NEW_LEAF);
  }

  function NewResponse(commit: string): MapResponse {
    MapResponse(true, commit, NoDummy, Some(NewRoot()), [NEW_FILE])
  }

  /** Another revision has other content under the same blob name. Pulling it, from an honest peer
      and without a fault, replaces the blob under the reference of the first one, which is dead
      afterwards though both revisions are mapped. */
  method OverwritingPull(n: Node, commit: string, other: string, suffix: string)
    requires ValidCommit(other) && commit != other && Holds(n.View(), BlobPath(Dir(), "b"), {commit})
    modifies n
    ensures Runs.Promises(old(n.View())) && n.mapping.Keys == {commit, other}
    ensures n.mapping[commit] == EntryOf(commit) && n.mapping[other].actual == Some(NewRoot())
    ensures Honest(n.View()) && !RefsLive(n.View())
  {
    ghost var s := n.View();
    HoldsKeepsPromises(s, BlobPath(Dir(), "b"), {commit});
    ghost var halt := PullNew(n, other, suffix);
    PullKills(s, n.View(), commit, other, suffix, halt);
  }

  method PullNew(n: Node, other: string, suffix: string) returns (ghost halt: Halt)
    requires Honest(n.View()) && ValidCommit(other)
    modifies n
    ensures Honest(n.View()) && Acceptable(other, NewResponse(other))
    ensures PullStep(old(n.View()), n.View(), "m", Model, other, NewResponse(other), suffix, {}, true, halt)
  {
    NewIsFavourable(other);
    var peer := new Peer(Supplied);
    var state := new Transfer();
    var ok;
    ok, halt := PullFrom(n, "m", Model, other, NewResponse(other), peer, state, 1, suffix, NO_FAULTS);
  }

  lemma PullKills(s: State, s': State, commit: string, other: string, suffix: string, halt: Halt)
    requires Holds(s, BlobPath(Dir(), "b"), {commit}) && RefsLive(s) && Acceptable(other, NewResponse(other))
    requires PullStep(s, s', "m", Model, other, NewResponse(other), suffix, {}, true, halt)
    ensures !RefsLive(s')
  {
    NamesAreFree(s, commit, suffix);
    PullDecidesRefsLive(s, s', "m", Model, other, NewResponse(other), suffix, {}, true, halt);
    OldRefDoesNotFit(s, commit, halt);
  }

  lemma NewIsFavourable(commit: string)
    ensures Acceptable(commit, NewResponse(commit)) && Favourable(Supplied, NewRoot(), [NEW_FILE], 1, NO_FAULTS)
  {
    NewRootIs();
    assert Leaves(NEW_LEAF) == [NEW_LEAF];
    assert Payload([NEW_LEAF]) == [2] by { assert [NEW_LEAF][..0] == []; }
  }

  lemma NamesAreFree(s: State, commit: string, suffix: string)
    requires Holds(s, BlobPath(Dir(), "b"), {commit})
    ensures NamesOk([NEW_FILE]) && TempNamesFree(Dir(), [NEW_FILE], suffix) && TempsFree(s, Dir(), [NEW_FILE], suffix)
  {
    PartIsNotBlob(Dir(), "b", suffix);
  }

  lemma OldRefDoesNotFit(s: State, commit: string, halt: Halt)
    requires Holds(s, BlobPath(Dir(), "b"), {commit})
    ensures !OldRefsFit(s, Dir(), NewRoot(), [NEW_FILE], true, halt)
  {
    assert ContentOf(NEW_FILE) == [2] && s.refs[LEAF].path == BlobOf(Dir(), [NEW_FILE][0]);
    var data: Bytes := [2];
    assert data[0..1] == [2] && !ReadsAs(data, s.refs[LEAF], LEAF);
    assert !ReadsNew(s, Dir(), [NEW_FILE], 1, LEAF);
  }

  // ---- An empty file whose leaf is not empty ----

  /** The manifest of an empty file names the hash of its leaf, which is not the empty one: the
      file counts as pulled, with a blob that does not have that hash. On any node. */
  method EmptyBlobDiffers(n: Node, repoDir: string, suffix: string)
    requires Honest(n.View())
    modifies n
    ensures var f := FileManifest("a", "b", 0, Sha256([1]), false, "", None);
      && BlobOf(repoDir, f) in n.disk && n.disk[BlobOf(repoDir, f)] == []
      && LEAF in n.blocks && !HasBlob(n.disk, repoDir, f)
  {
    var f := FileManifest("a", "b", 0, Sha256([1]), false, "", None);
    var peer := new Peer(Supplied);
    var state := new Transfer();
    ghost var mid, k;
    var r;
    r, mid, k := ReconstructFile(n, repoDir, f, LEAF, peer, state, 1, suffix, NO_FAULTS);
  }

  // ---- The lone leaf of an empty file ----

  /** The leaf of an empty file is put into the block store though it is referenced. */
  method EmptyLeafPut(n: Node, blob: Path, f: FileManifest)
    requires Disjoint(n.View()) && Hash(Raw([])) in n.refs && f.size == 0 && f.sha256 == Sha256([])
    modifies n
    ensures !Disjoint(n.View())
  {
    var peer := new Peer(Supplied);
    var r := StoreEmpty(n, blob, f, Hash(Raw([])), peer, NO_FAULTS);
    assert Hash(Raw([])) in n.blocks.Keys && Hash(Raw([])) in n.refs.Keys;
  }

  lemma EmptyLeafExists(p: Path) returns (s: State)
    ensures Runs.Promises(s) && Disjoint(s) && Hash(Raw([])) in s.refs
  {
    s := State(map[], map[Hash(Raw([])) := Ref(p, 0, 0)], map[p := []], map[], map[], map[], map[]);
    assert s.disk[p][0..0] == [];
  }

  // ---- Evictions ----

  /** An eviction that has swept something and then cannot delete the mapping leaves the revision
      mapped and broken. */
  method StoppedEviction(n: Node, e: Entry, c: Cid)
    requires Runs.Promises(n.View()) && Filed(n.View()) && e.commit in n.mapping && n.mapping[e.commit] == e
    requires Evict.Doomed(n.View(), e, c) && Has(n.View(), c) && Disjoint(n.View())
    modifies n
    ensures n.mapping == old(n.mapping) && !Closed(n.View())
  {
    ghost var s := n.View();
    LiveIsCoherent(s);
    var ok, swept := Evict.Commit(n, e, Evict.MAPPING_FAULT);
    assert Evict.ReachedBy(s, e.commit, c) && !Has(n.View(), c);
    EvictLaws.EvictKeepsClosedIff(s, e, n.View());
  }

  /** Such an entry: any that is mapped alone. */
  lemma StoppedEvictionExists(s: State, path: Path, commit: string)
    requires Holds(s, path, {commit})
    ensures Runs.Promises(s) && Filed(s) && s.mapping[commit] == EntryOf(commit)
    ensures Evict.Doomed(s, EntryOf(commit), LEAF) && Has(s, LEAF) && Disjoint(s)
  {
    HoldsKeepsPromises(s, path, {commit});
    assert Evict.ReachedBy(s, commit, LEAF) && Evict.Others(s, commit) == {};
  }

  /** A reference into the snapshot directory of the evicted revision dies, though another revision
      still needs it. */
  lemma SnapshotReferenceDies(s: State, commit: string, other: string)
    requires commit != other && Holds(s, SnapPath(Dir(), commit, "a"), {commit, other})
    ensures Runs.Promises(s) && !RefsLive(Evict.Evicted(s, EntryOf(commit)))
  {
    HoldsKeepsPromises(s, SnapPath(Dir(), commit, "a"), {commit, other});
    EvictLaws.SurvivorNotDoomed(s, EntryOf(commit), other, LEAF);
    EvictLaws.EvictKeepsRefsLiveIff(s, EntryOf(commit));
    assert Evict.InSnapshot(EntryOf(commit), s.refs[LEAF].path);
  }

  lemma BlobIsListed(commit: string)
    ensures Evict.ListsBlob(EntryOf(commit), BlobPath(Dir(), "b"))
  {
    assert EntryOf(commit).files[0] == FILE && SafeBlobName("b");
  }

  /** The blob that a surviving revision lists is removed, since no reference points into it. */
  lemma SurvivorsBlobLost(s: State, commit: string, other: string, path: Path)
    requires commit != other && Holds(s, path, {commit, other})
    requires path != BlobPath(Dir(), "b") && BlobPath(Dir(), "b") in s.disk
    ensures Runs.Promises(s) && Evict.ListsBlob(EntryOf(other), BlobPath(Dir(), "b"))
    ensures other in Evict.Evicted(s, EntryOf(commit)).mapping
    ensures BlobPath(Dir(), "b") !in Evict.Evicted(s, EntryOf(commit)).disk
  {
    HoldsKeepsPromises(s, path, {commit, other});
    BlobIsListed(commit);
    BlobIsListed(other);
    EvictLaws.SharedBlobLostIff(s, EntryOf(commit), BlobPath(Dir(), "b"));
  }

  /** And a kept revision is broken by pruning one that lists the same blob: that no such blob is
      shared is what a scan relies on. */
  lemma SharedBlobBreaksKept(s: State, commit: string, other: string, path: Path)
    requires commit != other && Holds(s, path, {commit, other})
    requires path != BlobPath(Dir(), "b") && BlobPath(Dir(), "b") in s.disk && LinksOnly(s, commit, other)
    ensures Watch.Due(s, {Dir()}, EntryOf(commit)) && Watch.Kept(s, {Dir()}, EntryOf(other))
    ensures !Watch.Complete(Evict.Evicted(s, EntryOf(commit)), Dir(), other)
  {
    var link := Snapshot.LinkPath(Dir(), other, FILE);
    SurvivorsBlobLost(s, commit, other, path);
    Fallback.DirIsSegment("m", Model);
    Snapshot.LinkLeadsToBlob(Dir(), other, FILE);
    OneLinkSnapshot(s, commit, other);
    LinkStays(s, commit, other);
    OneLinkSnapshot(Evict.Evicted(s, EntryOf(commit)), commit, other);
  }

  /** The only entry of any snapshot is the link of the file, for the other commit. */
  ghost predicate LinksOnly(s: State, commit: string, other: string) {
    && s.links == map[Snapshot.LinkPath(Dir(), other, FILE) := Snapshot.LinkTarget(Dir(), other, FILE)]
    && forall p | p in s.disk :: !p.SnapPath?
  }

  lemma LinkStays(s: State, commit: string, other: string)
    requires commit != other && LinksOnly(s, commit, other)
    ensures LinksOnly(Evict.Evicted(s, EntryOf(commit)), commit, other)
  {
  }

  lemma OneLinkSnapshot(s: State, commit: string, other: string)
    requires commit != other && LinksOnly(s, commit, other)
    ensures var link := Snapshot.LinkPath(Dir(), other, FILE);
      Watch.Complete(s, Dir(), other) <==> Snapshot.Source(s.disk, s.links, link).Some?
    ensures !Watch.Complete(s, Dir(), commit)
  {
    assert Snapshot.LinkPath(Dir(), other, FILE) in Snapshot.SnapshotEntries(s.disk, s.links, Dir(), other);
    assert Snapshot.SnapshotEntries(s.disk, s.links, Dir(), commit) == {};
  }
}
