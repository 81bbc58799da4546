/** Sharing a revision that is in the cache: read its snapshot, recover what the links cannot
    show, ingest. */
module Share {
  import opened Content
  import opened Dummy
  import opened Names
  import opened Store
  import opened Snapshot
  import DirTree
  import Ingest
  import TreeJson

  /** The importer's settings. */
  datatype Importer = Importer(layout: Ingest.Layout, size: nat)

  ghost predicate Usable(im: Importer) {
    im.size > 0 && Ingest.KeepsLeaves(im.layout)
  }

  /** Every file the snapshot shows is there. */
  predicate Readable(s: State, dir: string, commit: string) {
    forall p | p in Visible(s.disk, s.links, dir, commit) :: Source(s.disk, s.links, p).Some?
  }

  /** The manifest entry of some file of the snapshot, with its recorded LFS and Xet data. */
  ghost predicate EnrichedEntry(s: State, dir: string, commit: string, f: FileManifest) {
    exists r ::
      EntryOf(s.disk, s.links, dir, commit, r) && f == TreeJson.Enriched(TreeJson.Recorded(s.trees, dir, commit), r)
  }

  lemma EntriesPresent(s: State, dir: string, commit: string, fs: seq<FileManifest>)
    requires IsReading(s.disk, s.links, dir, commit, fs)
    ensures fs != [] <==> Visible(s.disk, s.links, dir, commit) != {}
    ensures forall f | f in fs :: EntryOf(s.disk, s.links, dir, commit, f) && f.src.Some? && f.src.value in s.disk
  {
    if fs != [] { assert LinkPath(dir, commit, fs[0]) in Visible(s.disk, s.links, dir, commit); }
  }

  /** The same files, read from the same places. */
  ghost predicate SamePlaces(fs: seq<FileManifest>, gs: seq<FileManifest>) {
    |fs| == |gs| && forall i | 0 <= i < |fs| :: fs[i].path == gs[i].path && fs[i].src == gs[i].src
  }

  lemma {:induction false} SameLeaves(disk: Disk, disk': Disk, im: Importer, fs: seq<FileManifest>,
      gs: seq<FileManifest>)
    requires im.size > 0 && SamePlaces(fs, gs) && Ingest.AllPresent(disk, fs)
    requires forall f | f in fs :: f.src.value in disk' && disk'[f.src.value] == disk[f.src.value]
    ensures Ingest.AllPresent(disk', gs)
    ensures Ingest.LeafMap(disk', im.layout, im.size, gs) == Ingest.LeafMap(disk, im.layout, im.size, fs)
    decreases |fs|
  {
    forall g | g in gs ensures g.src.Some? && g.src.value in disk' {
      var i :| 0 <= i < |gs| && gs[i] == g;
      assert fs[i] in fs;
    }
    if fs != [] {
      var m := |fs| - 1;
      assert fs[m] in fs;
      SameLeaves(disk, disk', im, fs[..m], gs[..m]);
    }
  }

  /** The root that ingesting the snapshot records. */
  ghost predicate WouldMap(s: State, im: Importer, dir: string, commit: string, root: Cid) {
    exists fs :: WouldMapFiles(s, im, dir, commit, fs, root)
  }

  ghost predicate WouldMapFiles(s: State, im: Importer, dir: string, commit: string, fs: seq<FileManifest>, root: Cid) {
    && im.size > 0 && IsReading(s.disk, s.links, dir, commit, fs) && Ingest.AllPresent(s.disk, fs)
    && root == DirTree.DirCid(Ingest.LeafMap(s.disk, im.layout, im.size, fs), [])
  }

  lemma MappedAsRead(s: State, im: Importer, dir: string, commit: string, read: seq<FileManifest>,
      files: seq<FileManifest>)
    requires im.size > 0 && IsReading(s.disk, s.links, dir, commit, read) && SamePlaces(read, files)
    requires Ingest.AllPresent(s.disk, files)
    ensures WouldMap(s, im, dir, commit, DirTree.DirCid(Ingest.LeafMap(s.disk, im.layout, im.size, files), []))
  {
    EntriesPresent(s, dir, commit, read);
    SameLeaves(s.disk, s.disk, im, read, files);
    assert WouldMapFiles(s, im, dir, commit, read,
      DirTree.DirCid(Ingest.LeafMap(s.disk, im.layout, im.size, read), []));
  }

  /** The file has the Xet hash that is recorded, and counts as LFS when its record says so. */
  predicate Restored(recorded: TreeFile, f: FileManifest) {
    && (recorded.xetHash != "" ==> f.xetHash == recorded.xetHash && f.lfs)
    && (recorded.lfsSha256 != NoDigest ==> f.lfs)
  }

  /** The manifest ingested for a snapshot. */
  method ReadEnriched(n: Node, dir: string, commit: string)
    returns (files: Option<seq<FileManifest>>, ghost read: seq<FileManifest>)
    ensures files.Some? <==> Readable(n.View(), dir, commit)
    ensures files.Some? ==> Ingest.AllPresent(n.disk, files.value)
    ensures files.Some? ==> (files.value != [] <==> Visible(n.disk, n.links, dir, commit) != {})
    ensures files.Some? ==> forall f | f in files.value :: EnrichedEntry(n.View(), dir, commit, f)
    ensures files.Some? ==> IsReading(n.disk, n.links, dir, commit, read) && SamePlaces(read, files.value)
    ensures files.Some? && (dir, commit) in n.trees ==>
      forall f | f in files.value && f.path in n.trees[(dir, commit)] :: Restored(n.trees[(dir, commit)][f.path], f)
  {
    files := ReadSnapshot(n, dir, commit);
    read := [];
    if files.Some? {
      var fs := files.value;
      read := fs;
      EntriesPresent(n.View(), dir, commit, read);
      var a := new FileManifest[|fs|](i requires 0 <= i < |fs| => fs[i]);
      TreeJson.EnrichFromTree(TreeJson.Recorded(n.trees, dir, commit), a);
      assert forall i | 0 <= i < |read| :: read[i] in read;
      files := Some(a[..]);
    }
  }

  /** Ingests a revision from its snapshot, and records it. */
  method IngestRevision(n: Node, repoId: string, t: RepoType, commit: string, im: Importer) returns (ok: bool)
    requires Honest(n.View()) && Usable(im)
    modifies n`blocks, n`refs, n`mapping
    ensures var dir := RepoDirName(repoId, t);
      ok <==> Readable(n.View(), dir, commit) && Visible(n.disk, n.links, dir, commit) != {} && ValidCommit(commit)
    ensures Ingest.IngestStep(old(n.View()), n.View(), commit, ok)
    ensures Ingest.PromisesKept(old(n.View()), n.View())
    ensures Visible(n.disk, n.links, RepoDirName(repoId, t), commit) == {} ==> n.View() == old(n.View())
    ensures ok ==> IsShared(n.View(), repoId, t, commit)
    ensures ok ==> WouldMap(old(n.View()), im, RepoDirName(repoId, t), commit, n.mapping[commit].actual.value)
  {
    ghost var s, read := n.View(), [];
    var files;
    files, read := ReadEnriched(n, RepoDirName(repoId, t), commit);
    if files.None? {
      Ingest.IngestKeepsPromises(n.View(), n.View(), commit, false);
      return false;
    }
    MappedAsRead(s, im, RepoDirName(repoId, t), commit, read, files.value);
    ok := Ingest.Run(n, repoId, t, commit, files.value, im.layout, im.size);
  }

  /** The commit is mapped to a whole root, with the files its snapshot shows. */
  ghost predicate IsShared(s: State, repoId: string, t: RepoType, commit: string) {
    commit in s.mapping && var e := s.mapping[commit];
    && e.repoId == repoId && e.repoType == t && e.commit == commit && e.actual.Some? && Whole(s, e.actual.value)
    && forall f | f in e.files :: EnrichedEntry(s, RepoDirName(repoId, t), commit, f)
  }
}
