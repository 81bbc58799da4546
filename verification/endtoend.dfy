/** A revision ingested on one node and pulled by another. */
module EndToEnd {
  import opened Content
  import opened Dummy
  import opened Names
  import opened Store
  import opened Remote
  import opened DirTree
  import opened Paths
  import opened Reconstruct
  import opened ProtoIO
  import opened PullOne
  import opened Transport
  import Ingest
  import Pull

  /** A manifest as reading a snapshot produces it: sizes and hashes are those of the source
      files, paths are distinct, and one blob name stands for one content. */
  ghost predicate ReadFrom(disk: Disk, files: seq<FileManifest>) {
    && Ingest.AllPresent(disk, files)
    && (forall f | f in files :: f.size == |disk[f.src.value]| && f.sha256 == Sha256(disk[f.src.value]))
    && (forall f, g | f in files && g in files && Split(f.path) == Split(g.path) :: f == g)
    && (forall f, g | f in files && g in files && f.blobName == g.blobName :: disk[f.src.value] == disk[g.src.value])
  }

  lemma {:induction false} LeafMapAt(disk: Disk, layout: Ingest.Layout, size: nat, files: seq<FileManifest>)
    requires size > 0 && Ingest.AllPresent(disk, files)
    requires forall f, g | f in files && g in files && Split(f.path) == Split(g.path) :: f == g
    ensures var m := Ingest.LeafMap(disk, layout, size, files);
      && (forall f | f in files ::
        Split(f.path) in m && m[Split(f.path)] == Ingest.FileRoot(layout, size, disk[f.src.value]))
      && (forall p | p in m :: exists f :: f in files && Split(f.path) == p)
    decreases |files|
  {
    if files != [] {
      var k := |files| - 1;
      var before := Ingest.LeafMap(disk, layout, size, files[..k]);
      LeafMapAt(disk, layout, size, files[..k]);
      assert files == files[..k] + [files[k]];
      LeafPathsOneMore(before, files, k);
    }
  }

  lemma LeafPathsOneMore(before: map<Rel, Cid>, files: seq<FileManifest>, k: nat)
    requires k < |files| && forall p | p in before :: exists f :: f in files[..k] && Split(f.path) == p
    ensures forall p | p in before || p == Split(files[k].path) :: exists f :: f in files && Split(f.path) == p
  {
  }

  /** The DAG of a file describes itself. */
  lemma FileRootDescribed(layout: Ingest.Layout, size: nat, data: Bytes, f: FileManifest, budget: nat)
    requires size > 0 && Ingest.KeepsLeaves(layout)
    requires f.size == |data| && f.sha256 == Sha256(data) && 0 < budget && |Ingest.Chunks(data, size)| <= budget
    ensures Describes(f, Ingest.FileRoot(layout, size, data), budget)
    ensures Payload(Leaves(Ingest.FileRoot(layout, size, data))) == data
  {
    Ingest.ChunksAreRaw(data, size);
    Ingest.ChunksJoin(data, size);
    if data == [] {
      Ingest.PayloadOne(Hash(Raw([])));
    } else {
      assert Leaves(layout(Ingest.Chunks(data, size))) == Ingest.Chunks(data, size);
    }
  }

  /** Under directories that all hold files, every directory on the way to p is where its
      prefix leads. */
  lemma {:induction false} LookupAncestor(leaves: map<Rel, Cid>, p: Rel, i: nat)
    requires PrefixFree(leaves) && p in leaves && AncestorsHoldFiles(leaves, p) && i < |p|
    ensures Lookup(DirCid(leaves, []), p[..i]) == Some(DirCid(leaves, p[..i]))
    decreases i
  {
    if i == 0 {
      assert p[..0] == [];
    } else {
      LookupAncestor(leaves, p, i - 1);
      ChildDir(leaves, p, i);
      LookupOneMore(DirCid(leaves, []), p, i, DirCid(leaves, p[..i - 1]), DirCid(leaves, p[..i]));
    }
  }

  lemma LookupOneMore(root: Cid, p: Rel, i: nat, at: Cid, next: Cid)
    requires 0 < i <= |p| && Lookup(root, p[..i - 1]) == Some(at) && Child(at, p[i - 1]) == Some(next)
    ensures Lookup(root, p[..i]) == Some(next)
  {
    assert p[..i] == p[..i - 1] + [p[i - 1]];
    LookupSnoc(root, p[..i - 1], p[i - 1]);
  }

  lemma ChildDir(leaves: map<Rel, Cid>, p: Rel, i: nat)
    requires PrefixFree(leaves) && p in leaves && AncestorsHoldFiles(leaves, p) && 0 < i < |p|
    ensures Child(DirCid(leaves, p[..i - 1]), p[i - 1]) == Some(DirCid(leaves, p[..i]))
  {
    assert p[..i] == p[..i - 1] + [p[i - 1]];
    TreeFinds(leaves, p[..i - 1], p[i - 1]);
  }

  /** What lies below a built directory: directories that hold files, and the DAGs of files. */
  lemma {:induction false} TreeNode(leaves: map<Rel, Cid>, dir: Rel, x: Cid)
    requires InDag(x, DirCid(leaves, dir))
    ensures x == DirCid(leaves, dir) || IsDirNode(leaves, x) || InSomeFile(leaves, x)
    decreases DeeperDirs(leaves, dir)
  {
    if x != DirCid(leaves, dir) {
      var name := EntryAbove(leaves, dir, x);
      if dir + [name] !in leaves {
        DeeperShrinks(leaves, dir, name);
        TreeNode(leaves, dir + [name], x);
      }
    }
  }

  ghost predicate IsDirNode(leaves: map<Rel, Cid>, x: Cid) {
    exists d :: d in Dirs(leaves) && x == DirCid(leaves, d)
  }

  ghost predicate InSomeFile(leaves: map<Rel, Cid>, x: Cid) {
    exists p :: p in leaves && InDag(x, leaves[p])
  }

  /** What makes a manifest pullable: no path is a directory of another, every directory on
      the way to a file directly holds one, no blob is called like another's temporary
      file, and no file has too many chunks. */
  ghost predicate Pullable(disk: Disk, repoDir: string, files: seq<FileManifest>, layout: Ingest.Layout, size: nat,
      budget: nat, suffix: string)
    requires size > 0 && Ingest.AllPresent(disk, files)
  {
    var leaves := Ingest.LeafMap(disk, layout, size, files);
    && PrefixFree(leaves) && (forall p | p in leaves :: AncestorsHoldFiles(leaves, p))
    && Pull.TempNamesFree(repoDir, files, suffix)
    && (forall f | f in files :: |Ingest.Chunks(disk[f.src.value], size)| <= budget)
    && 0 < budget
  }

  /** The puller has none of the revision's blobs, finished or not. */
  ghost predicate Empty(s: State, repoDir: string, files: seq<FileManifest>, suffix: string) {
    forall f | f in files :: BlobOf(repoDir, f) !in s.disk && PartPath(repoDir, f.blobName, suffix) !in s.disk
  }

  /** f is found below root, as the DAG of its source. */
  ghost predicate FileFound(disk: Disk, layout: Ingest.Layout, size: nat, root: Cid, f: FileManifest, budget: nat)
    requires size > 0 && f.src.Some? && f.src.value in disk
  {
    var c := Lookup(root, Split(f.path));
    && c == Some(Ingest.FileRoot(layout, size, disk[f.src.value]))
    && Describes(f, c.value, budget) && Payload(Leaves(c.value)) == disk[f.src.value]
  }

  /** Everything that holds of the manifest once it is ingested. */
  ghost predicate Set(disk: Disk, sb: State, repoDir: string, files: seq<FileManifest>, layout: Ingest.Layout,
      size: nat, budget: nat, suffix: string)
  {
    && size > 0 && Ingest.KeepsLeaves(layout) && ReadFrom(disk, files) && files != []
    && Pullable(disk, repoDir, files, layout, size, budget, suffix) && Empty(sb, repoDir, files, suffix)
  }

  ghost predicate AllFound(disk: Disk, layout: Ingest.Layout, size: nat, root: Cid, files: seq<FileManifest>,
      budget: nat)
  {
    size > 0 && Ingest.AllPresent(disk, files) &&
    forall f | f in files :: FileFound(disk, layout, size, root, f, budget)
  }

  lemma FilesFound(disk: Disk, sb: State, repoDir: string, files: seq<FileManifest>, layout: Ingest.Layout, size: nat,
      budget: nat, suffix: string)
    requires Set(disk, sb, repoDir, files, layout, size, budget, suffix)
    ensures AllFound(disk, layout, size, DirCid(Ingest.LeafMap(disk, layout, size, files), []), files, budget)
  {
    var leaves := Ingest.LeafMap(disk, layout, size, files);
    LeafMapAt(disk, layout, size, files);
    forall f | f in files ensures FileFound(disk, layout, size, DirCid(leaves, []), f, budget) {
      LookupFindsIff(leaves, Split(f.path));
      FileRootDescribed(layout, size, disk[f.src.value], f, budget);
    }
  }

  /** A file has a first one of its blob name, which is fetched and has the same content. */
  lemma FirstIsFresh(disk: Disk, sb: State, repoDir: string, files: seq<FileManifest>, suffix: string, f: FileManifest)
    returns (j: nat)
    requires ReadFrom(disk, files) && Empty(sb, repoDir, files, suffix) && f in files
    ensures j < |files| && Pull.FreshAt(sb.disk, repoDir, files, j)
    ensures disk[files[j].src.value] == disk[f.src.value] && files[j].size == f.size
  {
    var k :| 0 <= k < |files| && files[k] == f;
    j := FirstNamed(files, k);
    assert files[j] in files;
    NotExpected(sb.disk, repoDir, files, j, j);
  }

  lemma FirstNamed(files: seq<FileManifest>, k: nat) returns (j: nat)
    requires k < |files|
    ensures j <= k && files[j].blobName == files[k].blobName
    ensures forall i | 0 <= i < j :: files[i].blobName != files[k].blobName
  {
    j := 0;
    while files[j].blobName != files[k].blobName
      invariant j <= k && forall i | 0 <= i < j :: files[i].blobName != files[k].blobName
      decreases k - j
    {
      j := j + 1;
    }
  }

  lemma {:induction false} NotExpected(disk: Disk, repoDir: string, files: seq<FileManifest>, i: nat, j: nat)
    requires i <= j < |files| && BlobOf(repoDir, files[j]) !in disk
    requires forall k | 0 <= k < i :: files[k].blobName != files[j].blobName
    ensures Pull.Expect(disk, repoDir, files, i, files[j].blobName) == None
    decreases i
  {
    if i > 0 { NotExpected(disk, repoDir, files, i - 1, j); }
  }

  /** A pull into a node that has none of the files fetches the whole DAG. */
  lemma TreeSupplied(disk: Disk, sb: State, repoDir: string, files: seq<FileManifest>, layout: Ingest.Layout,
      size: nat, budget: nat, suffix: string)
    requires Set(disk, sb, repoDir, files, layout, size, budget, suffix)
    ensures Pull.Covered(sb, repoDir, DirCid(Ingest.LeafMap(disk, layout, size, files), []), files, {})
  {
    var leaves := Ingest.LeafMap(disk, layout, size, files);
    var root := DirCid(leaves, []);
    forall x | InDag(x, root) ensures Pull.Supplied(sb.disk, repoDir, root, files, |files|, {}, x) {
      TreeNode(leaves, [], x);
      if InSomeFile(leaves, x) {
        FileNodeSupplied(disk, sb, repoDir, files, layout, size, budget, suffix, x);
      } else if x != root {
        DirNodeSupplied(disk, sb, repoDir, files, layout, size, budget, suffix, x);
      }
    }
  }

  lemma FileNodeSupplied(disk: Disk, sb: State, repoDir: string, files: seq<FileManifest>, layout: Ingest.Layout,
      size: nat, budget: nat, suffix: string, x: Cid)
    requires Set(disk, sb, repoDir, files, layout, size, budget, suffix)
    requires InSomeFile(Ingest.LeafMap(disk, layout, size, files), x)
    ensures Pull.Supplied(sb.disk, repoDir, DirCid(Ingest.LeafMap(disk, layout, size, files), []), files, |files|, {},
        x)
  {
    var leaves := Ingest.LeafMap(disk, layout, size, files);
    var p :| p in leaves && InDag(x, leaves[p]);
    LeafMapAt(disk, layout, size, files);
    var f :| f in files && Split(f.path) == p;
    FilesFound(disk, sb, repoDir, files, layout, size, budget, suffix);
    InFileSupplied(disk, sb, repoDir, files, layout, size, budget, suffix, DirCid(leaves, []), f, x);
  }

  lemma InFileSupplied(disk: Disk, sb: State, repoDir: string, files: seq<FileManifest>, layout: Ingest.Layout,
      size: nat, budget: nat, suffix: string, root: Cid, f: FileManifest, x: Cid)
    requires AllFound(disk, layout, size, root, files, budget) && ReadFrom(disk, files)
    requires Empty(sb, repoDir, files, suffix)
    requires f in files && InDag(x, Ingest.FileRoot(layout, size, disk[f.src.value]))
    ensures Pull.Supplied(sb.disk, repoDir, root, files, |files|, {}, x)
  {
    var j := FirstIsFresh(disk, sb, repoDir, files, suffix, f);
    assert files[j] in files;
    assert FileFound(disk, layout, size, root, files[j], budget);
    assert Pull.SuppliedBy(sb.disk, repoDir, root, files, j, {}, x);
  }

  lemma ParentIsOnWay(leaves: map<Rel, Cid>, p: Rel)
    requires PrefixFree(leaves) && p in leaves && AncestorsHoldFiles(leaves, p)
    ensures OnWay(DirCid(leaves, []), p, DirCid(leaves, Parent(p)))
  {
    LookupAncestor(leaves, p, |p| - 1);
    assert p[..|p| - 1] == Parent(p);
  }

  lemma DirNodeSupplied(disk: Disk, sb: State, repoDir: string, files: seq<FileManifest>, layout: Ingest.Layout,
      size: nat, budget: nat, suffix: string, x: Cid)
    requires Set(disk, sb, repoDir, files, layout, size, budget, suffix)
    requires IsDirNode(Ingest.LeafMap(disk, layout, size, files), x)
    ensures Pull.Supplied(sb.disk, repoDir, DirCid(Ingest.LeafMap(disk, layout, size, files), []), files, |files|, {},
        x)
  {
    var leaves := Ingest.LeafMap(disk, layout, size, files);
    var d :| d in Dirs(leaves) && x == DirCid(leaves, d);
    var p :| p in leaves && Parent(p) == d;
    LeafMapAt(disk, layout, size, files);
    var f :| f in files && Split(f.path) == p;
    var j :| 0 <= j < |files| && files[j] == f;
    ParentIsOnWay(leaves, p);
    assert Pull.SuppliedBy(sb.disk, repoDir, DirCid(leaves, []), files, j, {}, x);
  }

  // ---- What fits into a frame ----

  /** No chunk is too long to be sent: the chunk size is below the frame bound, or every file is
      shorter than that. */
  ghost predicate ChunksFit(disk: Disk, files: seq<FileManifest>, size: nat)
    requires Ingest.AllPresent(disk, files)
  {
    size < MAX_FRAME || forall f | f in files :: |disk[f.src.value]| < MAX_FRAME
  }

  lemma {:induction false} ChunkLengths(data: Bytes, size: nat)
    requires size > 0
    ensures (forall c | c in Ingest.Chunks(data, size) :: |Data(c)| < MAX_FRAME)
      <==> size < MAX_FRAME || |data| < MAX_FRAME
    decreases |data|
  {
    if |data| > size {
      ChunkLengths(data[size..], size);
      var first := Hash(Raw(data[..size]));
      assert Ingest.Chunks(data, size) == [first] + Ingest.Chunks(data[size..], size);
      assert |Data(first)| == size && first in Ingest.Chunks(data, size);
    } else if data != [] {
      assert Hash(Raw(data)) in Ingest.Chunks(data, size) && |Data(Hash(Raw(data)))| == |data|;
    }
  }

  /** The largest chunk size that any file can be sent with. One more byte, and a file of that
      length has a chunk the server cannot frame. */
  lemma ChunkBoundIsSharp(data: Bytes)
    requires |data| >= MAX_FRAME
    ensures forall c | c in Ingest.Chunks(data, 8388607) :: |Data(c)| < MAX_FRAME
    ensures exists c :: c in Ingest.Chunks(data, 8388608) && |Data(c)| >= MAX_FRAME
    ensures exists c :: c in Ingest.Chunks(data, 16777216) && |Data(c)| >= MAX_FRAME
  {
    ChunkLengths(data, 8388607);
    ChunkLengths(data, 8388608);
    ChunkLengths(data, 16777216);
  }

  /** The encoded directory and file nodes of the DAG are shorter than a frame. */
  ghost predicate NodesFit(codec: Codec, root: Cid) {
    forall x | InDag(x, root) && !IsRaw(x) :: Fits(codec, x.content)
  }

  ghost predicate AllFit(codec: Codec, root: Cid) {
    forall x | InDag(x, root) :: Fits(codec, x.content)
  }

  lemma LeafDataFits(layout: Ingest.Layout, size: nat, data: Bytes, x: Cid)
    requires size > 0 && Ingest.KeepsLeaves(layout) && (size < MAX_FRAME || |data| < MAX_FRAME)
    requires InDag(x, Ingest.FileRoot(layout, size, data)) && IsRaw(x)
    ensures |Data(x)| < MAX_FRAME
  {
    ChunkLengths(data, size);
    Ingest.ChunksAreRaw(data, size);
    RawInDagIsLeaf(x, Ingest.FileRoot(layout, size, data));
    if data != [] { assert Leaves(layout(Ingest.Chunks(data, size))) == Ingest.Chunks(data, size); }
  }

  lemma ChunksFitMeansAllFit(disk: Disk, files: seq<FileManifest>, layout: Ingest.Layout, size: nat, codec: Codec)
    requires size > 0 && Ingest.KeepsLeaves(layout) && ReadFrom(disk, files) && ChunksFit(disk, files, size)
    requires NodesFit(codec, DirCid(Ingest.LeafMap(disk, layout, size, files), []))
    ensures AllFit(codec, DirCid(Ingest.LeafMap(disk, layout, size, files), []))
  {
    var leaves := Ingest.LeafMap(disk, layout, size, files);
    LeafMapAt(disk, layout, size, files);
    forall x | InDag(x, DirCid(leaves, [])) && IsRaw(x) ensures Fits(codec, x.content) {
      TreeNode(leaves, [], x);
      var p :| p in leaves && InDag(x, leaves[p]);
      var f :| f in files && Split(f.path) == p;
      LeafDataFits(layout, size, disk[f.src.value], x);
    }
  }

  lemma WholeIsServed(s: State, codec: Codec, root: Cid, answers: (nat, Cid) -> Answer)
    requires Honest(s) && RefsLive(s) && Whole(s, root) && Faithful(codec) && AllFit(codec, root)
    requires forall k, c :: answers(k, c) == AnswerOver(s, codec, c)
    ensures Served(answers, root)
  {
    WholeIsFound(s, root);
    forall x | InDag(x, root) ensures Supplies(answers, x) { ServedIsSentIff(s, codec, x); }
  }

  /** Conversely what has come over the stream fits. */
  lemma CameMeansFit(disk: Disk, sa: State, sb: State, repoDir: string, files: seq<FileManifest>,
      layout: Ingest.Layout, size: nat, budget: nat, suffix: string, root: Cid, codec: Codec,
      answers: (nat, Cid) -> Answer)
    requires AllFound(disk, layout, size, root, files, budget) && ReadFrom(disk, files)
    requires Empty(sb, repoDir, files, suffix)
    requires Ingest.KeepsLeaves(layout) && Faithful(codec) && ServesAll(sa, root)
    requires forall k, c :: answers(k, c) == AnswerOver(sa, codec, c)
    requires Pull.AllChunksCame(answers, sb.disk, repoDir, root, files, |files|)
    ensures ChunksFit(disk, files, size)
  {
    forall f | f in files && size >= MAX_FRAME ensures |disk[f.src.value]| < MAX_FRAME {
      var j := FirstIsFresh(disk, sb, repoDir, files, suffix, f);
      assert files[j] in files;
      assert FileFound(disk, layout, size, root, files[j], budget);
      if files[j].size != 0 {
        Pull.LookupInDag(root, Split(files[j].path));
        FileCameMeansFit(sa, root, layout, size, disk[f.src.value], codec, answers);
      }
    }
  }

  lemma FileCameMeansFit(sa: State, root: Cid, layout: Ingest.Layout, size: nat, data: Bytes, codec: Codec,
      answers: (nat, Cid) -> Answer)
    requires size > 0 && Ingest.KeepsLeaves(layout) && data != [] && Faithful(codec)
    requires ServesAll(sa, root)
    requires InDag(Ingest.FileRoot(layout, size, data), root)
    requires Delivered(answers, Leaves(Ingest.FileRoot(layout, size, data)))
    requires forall k, c :: answers(k, c) == AnswerOver(sa, codec, c)
    ensures size < MAX_FRAME || |data| < MAX_FRAME
  {
    var c := Ingest.FileRoot(layout, size, data);
    Ingest.ChunksAreRaw(data, size);
    assert Leaves(c) == Ingest.Chunks(data, size);
    LeavesInDag(c);
    forall x | x in Ingest.Chunks(data, size) ensures |Data(x)| < MAX_FRAME {
      var i :| 0 <= i < |Leaves(c)| && Leaves(c)[i] == x;
      assert DeliveredOne(answers, Leaves(c)[i]);
      InDagTransitive(x, c, root);
      ServedIsSentIff(sa, codec, x);
    }
    ChunkLengths(data, size);
  }

  // ---- The theorem ----

  function RootOf(disk: Disk, layout: Ingest.Layout, size: nat, files: seq<FileManifest>): Cid
    requires size > 0 && Ingest.AllPresent(disk, files)
  {
    DirCid(Ingest.LeafMap(disk, layout, size, files), [])
  }

  /** All that sharing relies on: both nodes keep blocks honest and references live, the manifest
      can be pulled, and what is asked for and sent, chunks aside, fits a frame. */
  ghost predicate CanShare(sa: State, sb: State, repoDir: string, commit: string, files: seq<FileManifest>,
      layout: Ingest.Layout, size: nat, budget: nat, suffix: string, codec: Codec)
  {
    && ValidCommit(commit) && Honest(sa) && RefsLive(sa) && Honest(sb) && RefsLive(sb)
    && Set(sa.disk, sb, repoDir, files, layout, size, budget, suffix)
    && (forall f | f in files :: SafeRelPath(f.path) && SafeBlobName(f.blobName))
    && Faithful(codec) && NodesFit(codec, RootOf(sa.disk, layout, size, files))
    && RequestsFit(codec, RootOf(sa.disk, layout, size, files))
  }

  /** Every batch of at most 64 CIDs below root is delivered over the stream. */
  ghost predicate StreamDelivers(s: State, codec: Codec, root: Cid) {
    forall cs | BatchBelow(cs, root) :: Deliverable(s, codec, cs)
  }

  /** Ingest on one node, pull on another that has none of it, over the block stream. It succeeds
      exactly when no chunk is too long for a frame. Then the stream delivers whatever is asked
      for, and the puller ends with every blob equal to the seeder's source file, the same root
      mapped, and the whole DAG servable from its own stores. */
  method ShareAndPull(a: Node, b: Node, repoId: string, t: RepoType, commit: string, files: seq<FileManifest>,
      layout: Ingest.Layout, size: nat, budget: nat, suffix: string, codec: Codec)
    returns (ok: bool)
    requires a != b
    requires CanShare(a.View(), b.View(), RepoDirName(repoId, t), commit, files, layout, size, budget, suffix, codec)
    modifies a, b
    ensures ok <==> ChunksFit(old(a.disk), files, size)
    ensures !ok ==> b.mapping == old(b.mapping)
    ensures ok ==> commit in a.mapping && commit in b.mapping && b.mapping[commit].actual == a.mapping[commit].actual
    ensures ok ==> b.mapping[commit].actual.Some? && ServesAll(b.View(), b.mapping[commit].actual.value)
    ensures ok ==> StreamDelivers(a.View(), codec, b.mapping[commit].actual.value)
    ensures ok ==> forall f | f in files :: SameBytes(old(a.disk), b.disk, RepoDirName(repoId, t), f)
    ensures Honest(b.View()) && RefsLive(b.View()) && (Closed(old(b.View())) ==> (ok ==> Closed(b.View())))
  {
    ghost var disk, sb, dir := a.disk, b.View(), RepoDirName(repoId, t);
    FilesFound(disk, sb, dir, files, layout, size, budget, suffix);
    TreeSupplied(disk, sb, dir, files, layout, size, budget, suffix);
    PullGuarded(disk, sb, dir, files, layout, size, budget, suffix);
    var resp := Seed(a, repoId, t, commit, files, layout, size);
    if ChunksFit(disk, files, size) { ChunksFitMeansAllFit(disk, files, layout, size, codec); }
    ok := PullOver(a.View(), b, repoId, t, commit, resp, disk, layout, size, budget, suffix, codec);
  }

  /** The puller's half: the seeder's store answers over the stream. */
  method PullOver(sa: State, b: Node, repoId: string, t: RepoType, commit: string, resp: Pull.MapResponse,
      ghost disk: Disk, layout: Ingest.Layout, size: nat, budget: nat, suffix: string, codec: Codec)
    returns (ok: bool)
    requires Honest(sa) && RefsLive(sa) && Honest(b.View()) && RefsLive(b.View()) && Faithful(codec)
    requires resp.actual.Some? && RequestsFit(codec, resp.actual.value)
    requires Pull.Acceptable(commit, resp) && Whole(sa, resp.actual.value) && Ingest.KeepsLeaves(layout)
    requires AllFound(disk, layout, size, resp.actual.value, resp.files, budget) && ReadFrom(disk, resp.files)
    requires Empty(b.View(), RepoDirName(repoId, t), resp.files, suffix)
    requires Pull.Guarded(b.View(), RepoDirName(repoId, t), resp.files, suffix)
    requires Pull.Covered(b.View(), RepoDirName(repoId, t), resp.actual.value, resp.files, {})
    requires ChunksFit(disk, resp.files, size) ==> AllFit(codec, resp.actual.value)
    modifies b
    ensures ok <==> ChunksFit(disk, resp.files, size)
    ensures b.mapping ==
      if ok then old(b.mapping)[commit := Entry(repoId, t, commit, resp.actual, resp.files)] else old(b.mapping)
    ensures ok ==> ServesAll(b.View(), resp.actual.value) && StreamDelivers(sa, codec, resp.actual.value)
    ensures ok ==> forall f | f in resp.files :: SameBytes(disk, b.disk, RepoDirName(repoId, t), f)
    ensures Honest(b.View()) && RefsLive(b.View()) && (ok && Closed(old(b.View())) ==> Closed(b.View()))
  {
    ghost var sb, dir, root := b.View(), RepoDirName(repoId, t), resp.actual.value;
    var peer := new Peer((k, c) => AnswerOver(sa, codec, c));
    var state := new Transfer();
    WholeIsFound(sa, root);
    if ChunksFit(disk, resp.files, size) {
      WholeIsServed(sa, codec, root, peer.answers);
      BatchesDeliverable(sa, codec, root);
      AllDescribed(disk, layout, size, root, resp.files, budget);
    }
    LiveIsCoherent(sb);
    ghost var halt;
    ok, halt := Pull.PullFrom(b, repoId, t, commit, resp, peer, state, budget, suffix, NO_FAULTS);
    if ok {
      CameMeansFit(disk, sa, sb, dir, resp.files, layout, size, budget, suffix, root, codec, peer.answers);
      Pulled(disk, sb, b.View(), dir, resp.files, resp, repoId, t, commit, suffix, halt);
    }
  }

  lemma AllDescribed(disk: Disk, layout: Ingest.Layout, size: nat, root: Cid, files: seq<FileManifest>, budget: nat)
    requires AllFound(disk, layout, size, root, files, budget)
    ensures forall f | f in files ::
      Lookup(root, Split(f.path)).Some? && Describes(f, Lookup(root, Split(f.path)).value, budget)
  {
    forall f | f in files
      ensures Lookup(root, Split(f.path)).Some? && Describes(f, Lookup(root, Split(f.path)).value, budget)
    {
      assert FileFound(disk, layout, size, root, f, budget);
    }
  }

  lemma PullGuarded(disk: Disk, sb: State, repoDir: string, files: seq<FileManifest>, layout: Ingest.Layout,
      size: nat, budget: nat, suffix: string)
    requires Set(disk, sb, repoDir, files, layout, size, budget, suffix) && RefsLive(sb)
    ensures Pull.Guarded(sb, repoDir, files, suffix)
  {
    forall c | c in sb.refs ensures sb.refs[c].path in sb.disk { assert RefLive(sb.disk, c, sb.refs[c]); }
  }

  /** The seeder's half: ingest, then answer the map query. */
  method Seed(a: Node, repoId: string, t: RepoType, commit: string, files: seq<FileManifest>, layout: Ingest.Layout,
      size: nat)
    returns (resp: Pull.MapResponse)
    requires size > 0 && Ingest.KeepsLeaves(layout) && ValidCommit(commit) && files != []
    requires Ingest.AllPresent(a.disk, files)
    requires Honest(a.View()) && RefsLive(a.View())
    requires forall f | f in files :: SafeRelPath(f.path) && SafeBlobName(f.blobName)
    modifies a
    ensures Honest(a.View()) && RefsLive(a.View())
    ensures Pull.Acceptable(commit, resp) && resp.files == files && commit in a.mapping
    ensures a.mapping[commit].actual == resp.actual
    ensures resp.actual.value == DirCid(Ingest.LeafMap(old(a.disk), layout, size, files), [])
    ensures Whole(a.View(), resp.actual.value)
  {
    ghost var s := a.View();
    var ok := Ingest.Run(a, repoId, t, commit, files, layout, size);
    Seeded(s, a.View(), commit);
    resp := Pull.HandleMap(a, commit, false, false);
  }

  ghost predicate SameBytes(disk: Disk, disk': Disk, repoDir: string, f: FileManifest) {
    && f.src.Some? && f.src.value in disk && BlobOf(repoDir, f) in disk'
    && disk'[BlobOf(repoDir, f)] == disk[f.src.value]
  }

  lemma Seeded(s: State, s': State, commit: string)
    requires Honest(s) && RefsLive(s) && Ingest.Enlarged(s, s'.(mapping := s.mapping))
    ensures Honest(s') && RefsLive(s')
  {
  }

  lemma Pulled(disk: Disk, s: State, s': State, repoDir: string, files: seq<FileManifest>, resp: Pull.MapResponse,
      repoId: string, t: RepoType, commit: string, suffix: string, halt: Pull.Halt)
    requires Pull.PullStep(s, s', repoId, t, commit, resp, suffix, {}, true, halt) && repoDir == RepoDirName(repoId, t)
    requires ReadFrom(disk, files) && resp.files == files && Pull.TempNamesFree(repoDir, files, suffix)
    requires Honest(s') && RefsLive(s') && Pull.Covered(s, repoDir, resp.actual.value, files, {})
    requires forall f | f in files :: BlobDone(s', repoDir, f)
    ensures forall f | f in files :: SameBytes(disk, s'.disk, repoDir, f)
    ensures ServesAll(s', resp.actual.value)
  {
    Pull.PulledWholeIff(s, s', repoDir, resp.actual.value, files, {});
    WholeIsFound(s', resp.actual.value);
  }

  /** Every block below root is served byte for byte. */
  ghost predicate ServesAll(s: State, root: Cid) {
    forall x | InDag(x, root) :: Serve(s, x) == Found(x.content)
  }

  lemma WholeIsFound(s: State, root: Cid)
    requires Honest(s) && RefsLive(s) && Whole(s, root)
    ensures ServesAll(s, root)
  {
  }
}
