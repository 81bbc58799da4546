/** A node on which a scan has to do everything: a mapped revision whose snapshot has vanished
    shares its referenced blob with a finalized head that is not mapped yet. */
module WatchWitness {
  import opened Content
  import opened Dummy
  import opened Names
  import opened Store
  import opened Snapshot
  import opened Share
  import opened Watch
  import opened Witnesses
  import DirTree
  import Evict
  import Fallback
  import Ingest
  import OneFile
  import Paths
  import Pull

  /** The blob is referenced for one commit, and the only snapshot is the other's, with one link to
      the blob; that one is what refs/main names. */
  ghost predicate HeadShares(s: State, commit: string, other: string) {
    && commit != other && ValidCommit(other) && Holds(s, BlobPath(Dir(), "b"), {commit})
    && LinksOnly(s, commit, other) && s.heads == map[(Dir(), MAIN) := other]
  }

  /** Such a node is ready to be scanned: the head is mapped before the vanished entry is pruned, and
      protects the blob then. */
  lemma SharedHeadIsReady(s: State, commit: string, other: string, im: Importer)
    requires HeadShares(s, commit, other) && Usable(im)
    ensures Ready(s, {Dir()}, im)
    ensures Due(s, {Dir()}, Witnesses.EntryOf(commit)) && HeadOf(s, {Dir()}, "m", other) && other !in s.mapping
    ensures Evict.ListsBlob(Witnesses.EntryOf(commit), BlobPath(Dir(), "b"))
    ensures !Protected(s, {Dir()}, BlobPath(Dir(), "b"))
  {
    HoldsKeepsPromises(s, BlobPath(Dir(), "b"), {commit});
    OneRepo();
    OneLinkSnapshot(s, commit, other);
    LinkShown(s, commit, other);
    BlobIsListed(commit);
    OnlyOneComplete(s, commit, other);
    HeadHoldsBlob(s, commit, other, im);
    forall k, d, c | k in s.mapping && !Kept(s, {Dir()}, s.mapping[k]) && Complete(s, d, c)
      ensures !UsesBlobOf(s, {Dir()}, im, d, c, s.mapping[k])
    {
      assert k == commit && d == Dir() && c == other;
    }
  }

  lemma OneRepo()
    ensures Repos({Dir()}) == {"m"} && DirOf({Dir()}, "m") == Dir() && '/' !in Dir()
  {
    RepoDirNameRoundTrip("m", Model);
  }

  lemma LinkShown(s: State, commit: string, other: string)
    requires HeadShares(s, commit, other)
    ensures Source(s.disk, s.links, LinkPath(Dir(), other, FILE)) == Some(BlobPath(Dir(), "b"))
    ensures Visible(s.disk, s.links, Dir(), other) == {LinkPath(Dir(), other, FILE)}
  {
    Fallback.DirIsSegment("m", Model);
    LinkLeadsToBlob(Dir(), other, FILE);
    Paths.SplitOne("a");
    assert Paths.Split("a") == ["a"];
  }

  lemma OnlyOneComplete(s: State, commit: string, other: string)
    requires HeadShares(s, commit, other)
    ensures forall d, c | Complete(s, d, c) :: d == Dir() && c == other
  {
  }

  lemma HeadHoldsBlob(s: State, commit: string, other: string, im: Importer)
    requires HeadShares(s, commit, other) && Usable(im)
    ensures HeadHolds(s, {Dir()}, im, Dir(), other, Witnesses.EntryOf(commit), BlobPath(Dir(), "b"))
  {
    HoldsKeepsPromises(s, BlobPath(Dir(), "b"), {commit});
    OneRepo();
    OneLinkSnapshot(s, commit, other);
    LinkShown(s, commit, other);
    assert HeadIn(s, {Dir()}, "m", Dir(), other);
    forall root | WouldMap(s, im, Dir(), other, root) ensures InDag(LEAF, root) {
      LeafIsBelow(s, commit, other, im, root);
    }
    assert HeldAt(s, im, Dir(), other, Witnesses.EntryOf(commit), BlobPath(Dir(), "b"), LEAF);
  }

  /** The ingested root holds the chunk of the file. */
  lemma LeafIsBelow(s: State, commit: string, other: string, im: Importer, root: Cid)
    requires HeadShares(s, commit, other) && Usable(im) && WouldMap(s, im, Dir(), other, root)
    ensures InDag(LEAF, root)
  {
    var fs :| WouldMapFiles(s, im, Dir(), other, fs, root);
    LinkShown(s, commit, other);
    OneIsRead(s, commit, other, fs);
    ChunkIsBelow(im, root, s.disk, fs);
  }

  lemma OneIsRead(s: State, commit: string, other: string, fs: seq<FileManifest>)
    requires HeadShares(s, commit, other) && IsReading(s.disk, s.links, Dir(), other, fs)
    ensures |fs| == 1 && fs[0].path == "a" && fs[0].src == Some(BlobPath(Dir(), "b"))
  {
    LinkShown(s, commit, other);
    var link := LinkPath(Dir(), other, FILE);
    assert link in Visible(s.disk, s.links, Dir(), other);
    var f :| f in fs && LinkPath(Dir(), other, f) == link;
    forall i | 0 <= i < |fs| ensures fs[i].path == "a" {
      assert fs[i] in fs && LinkPath(Dir(), other, fs[i]) in Visible(s.disk, s.links, Dir(), other);
    }
    var k :| 0 <= k < |fs| && fs[k] == f;
    forall i | 0 <= i < |fs| ensures fs[i].path == fs[k].path && i == k {}
    assert fs[0].path == fs[|fs| - 1].path;
    assert Snapshot.EntryOf(s.disk, s.links, Dir(), other, f);
  }

  lemma ChunkIsBelow(im: Importer, root: Cid, disk: Disk, fs: seq<FileManifest>)
    requires Usable(im) && |fs| == 1 && fs[0].path == "a" && Ingest.AllPresent(disk, fs)
    requires disk[fs[0].src.value] == [1]
    requires root == DirTree.DirCid(Ingest.LeafMap(disk, im.layout, im.size, fs), [])
    ensures InDag(LEAF, root)
  {
    Paths.SplitOne("a");
    var leaves := Ingest.LeafMap(disk, im.layout, im.size, fs);
    var file := Ingest.FileRoot(im.layout, im.size, [1]);
    assert leaves == map[["a"] := file] by { assert fs[..0] == []; }
    OneFile.RootFinds(leaves, ["a"]);
    Pull.LookupInDag(root, ["a"]);
    assert Ingest.Chunks([1], im.size) == [LEAF];
    assert Leaves(file) == [LEAF];
    LeavesInDag(file);
    assert LEAF in Leaves(file);
    InDagTransitive(LEAF, file, root);
  }
}
