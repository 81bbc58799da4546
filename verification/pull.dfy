/** Pulling a revision from a peer: file after file, then the mapping; and what is kept on the
    way, with or without success. */
module Pull {
  import opened Content
  import opened Dummy
  import opened Names
  import opened Store
  import opened Remote
  import opened DirTree
  import opened Paths
  import opened Reconstruct
  import opened FileLaws
  import opened PullOne

  // ---- All files ----

  /** What is expected of the blob of that name once the first i files are done. */
  function Expect(disk: Disk, repoDir: string, files: seq<FileManifest>, i: nat, name: string): Option<(int, Digest)>
    requires i <= |files|
  {
    if i == 0 then Summary(disk, repoDir, name)
    else if files[i - 1].blobName == name then Some(Settled(files[i - 1]))
    else Expect(disk, repoDir, files, i - 1, name)
  }

  /** When its turn comes, the j-th file is not found on disk: neither from before nor from an
      earlier file of the same blob. */
  predicate FreshAt(disk: Disk, repoDir: string, files: seq<FileManifest>, j: nat)
    requires j < |files|
  {
    Expect(disk, repoDir, files, j, files[j].blobName) != Some((files[j].size, files[j].sha256))
  }

  ghost predicate SuppliedBy(disk: Disk, repoDir: string, root: Cid, files: seq<FileManifest>, j: nat,
      unstored: set<Cid>, x: Cid)
    requires j < |files|
  {
    || (OnWay(root, Split(files[j].path), x) && x !in unstored)
    || (FreshAt(disk, repoDir, files, j) && InFile(root, files[j], unstored, x))
  }

  /** What pulling the first i files puts into the stores, told from the disk before: the root,
      the nodes on the way to each file, and the DAGs of the files not found on disk. */
  ghost predicate Supplied(disk: Disk, repoDir: string, root: Cid, files: seq<FileManifest>, i: nat,
      unstored: set<Cid>, x: Cid)
    requires i <= |files|
  {
    || (x == root && !IsRaw(root) && root !in unstored)
    || exists j :: 0 <= j < i && SuppliedBy(disk, repoDir, root, files, j, unstored, x)
  }

  /** Temporary names are not blob names: the suffix is random. */
  ghost predicate TempNamesFree(repoDir: string, files: seq<FileManifest>, suffix: string) {
    forall f, g | f in files && g in files :: PartPath(repoDir, f.blobName, suffix) != BlobOf(repoDir, g)
  }

  /** A blob name stands for one content within the manifest. */
  ghost predicate NamesOk(files: seq<FileManifest>) {
    forall f, g | f in files && g in files && f.blobName == g.blobName :: f.sha256 == g.sha256 && f.size == g.size
  }

  ghost predicate TempsFree(s: State, repoDir: string, files: seq<FileManifest>, suffix: string) {
    forall f | f in files :: Unreferenced(s.refs, PartPath(repoDir, f.blobName, suffix))
  }

  /** No blob of the manifest is referenced for other content. */
  ghost predicate BlobsFree(s: State, repoDir: string, files: seq<FileManifest>) {
    forall f | f in files :: HasBlob(s.disk, repoDir, f) || Unreferenced(s.refs, BlobOf(repoDir, f))
  }

  ghost predicate Guarded(s: State, repoDir: string, files: seq<FileManifest>, suffix: string) {
    TempNamesFree(repoDir, files, suffix) && NamesOk(files) && TempsFree(s, repoDir, files, suffix) &&
    BlobsFree(s, repoDir, files)
  }

  // The state once the first i files are done, part by part.

  ghost predicate HasTo(s: State, s': State, repoDir: string, root: Cid, files: seq<FileManifest>, i: nat,
      unstored: set<Cid>)
    requires i <= |files|
  {
    forall x :: Has(s', x) <==> Has(s, x) || Supplied(s.disk, repoDir, root, files, i, unstored, x)
  }

  ghost predicate DiskTo(s: State, s': State, repoDir: string, files: seq<FileManifest>, i: nat)
    requires i <= |files|
  {
    forall f | f in files :: Summary(s'.disk, repoDir, f.blobName) == Expect(s.disk, repoDir, files, i, f.blobName)
  }

  ghost predicate IntoBlob(repoDir: string, files: seq<FileManifest>, i: nat, p: Path)
    requires i <= |files|
  {
    exists j :: 0 <= j < i && p == BlobOf(repoDir, files[j]) && files[j].size != 0
  }

  ghost predicate RefsTo(s: State, s': State, repoDir: string, files: seq<FileManifest>, i: nat)
    requires i <= |files|
  {
    forall x | x in s'.refs ::
      (x in s.refs && s'.refs[x] == s.refs[x]) || (IsRaw(x) && IntoBlob(repoDir, files, i, s'.refs[x].path))
  }

  ghost predicate Foreign(repoDir: string, files: seq<FileManifest>, suffix: string, p: Path) {
    forall f | f in files :: p != BlobOf(repoDir, f) && p != PartPath(repoDir, f.blobName, suffix)
  }

  ghost predicate FilesTo(s: State, s': State, repoDir: string, files: seq<FileManifest>, suffix: string) {
    forall p | Foreign(repoDir, files, suffix, p) :: SameFile(s.disk, s'.disk, p)
  }

  /** A reference from before, into a blob of the manifest. */
  ghost predicate OldIntoBlob(s: State, s': State, repoDir: string, files: seq<FileManifest>, x: Cid)
    requires x in s'.refs
  {
    x in s.refs && s'.refs[x] == s.refs[x] && exists f :: f in files && s.refs[x].path == BlobOf(repoDir, f)
  }

  /** No other reference is dead. */
  ghost predicate LiveTo(s: State, s': State, repoDir: string, files: seq<FileManifest>) {
    forall x | x in s'.refs :: RefLive(s'.disk, x, s'.refs[x]) || OldIntoBlob(s, s', repoDir, files, x)
  }

  /** A blob that was right still is, and new references lead into right blobs only. */
  ghost predicate BlobSound(s: State, s': State, repoDir: string, f: FileManifest) {
    && (HasBlob(s.disk, repoDir, f) ==> HasBlob(s'.disk, repoDir, f))
    && (HasBlob(s'.disk, repoDir, f) || forall x | x in s'.refs && s'.refs[x].path == BlobOf(repoDir, f) ::
      x in s.refs && s'.refs[x] == s.refs[x])
  }

  ghost predicate BlobsSound(s: State, s': State, repoDir: string, files: seq<FileManifest>) {
    forall f | f in files :: BlobSound(s, s', repoDir, f)
  }

  lemma HasBlobIsSummary(disk: Disk, repoDir: string, f: FileManifest)
    ensures HasBlob(disk, repoDir, f) <==> Summary(disk, repoDir, f.blobName) == Some((f.size, f.sha256))
  {
  }

  lemma HasNext(s: State, s1: State, s2: State, repoDir: string, root: Cid, files: seq<FileManifest>, i: nat,
      unstored: set<Cid>)
    requires i < |files| && HasTo(s, s1, repoDir, root, files, i, unstored) && DiskTo(s, s1, repoDir, files, i)
    requires FileAdded(s1, s2, repoDir, root, files[i], unstored)
    ensures HasTo(s, s2, repoDir, root, files, i + 1, unstored)
  {
    assert files[i] in files;
    HasBlobIsSummary(s1.disk, repoDir, files[i]);
    forall x ensures Has(s2, x) <==> Has(s, x) || Supplied(s.disk, repoDir, root, files, i + 1, unstored, x) {
      assert SuppliedBy(s.disk, repoDir, root, files, i, unstored, x)
        <==> FileSupplied(s1.disk, repoDir, root, files[i], unstored, x);
    }
  }

  lemma DiskNext(s: State, s1: State, s2: State, repoDir: string, files: seq<FileManifest>, i: nat, suffix: string)
    requires i < |files| && DiskTo(s, s1, repoDir, files, i) && TempNamesFree(repoDir, files, suffix)
    requires OtherFilesSame(s1, s2, repoDir, files[i], suffix) && BlobDone(s2, repoDir, files[i])
    ensures DiskTo(s, s2, repoDir, files, i + 1)
  {
    assert files[i] in files;
    forall f | f in files && f.blobName != files[i].blobName
      ensures Summary(s2.disk, repoDir, f.blobName) == Summary(s1.disk, repoDir, f.blobName)
    {
      assert SameFile(s1.disk, s2.disk, BlobOf(repoDir, f));
    }
  }

  lemma RefsNext(s: State, s1: State, s2: State, repoDir: string, files: seq<FileManifest>, i: nat)
    requires i < |files| && RefsTo(s, s1, repoDir, files, i) && RefsOnlyInto(s1, s2, repoDir, files[i])
    ensures RefsTo(s, s2, repoDir, files, i + 1)
  {
    forall p | IntoBlob(repoDir, files, i, p) ensures IntoBlob(repoDir, files, i + 1, p) {
      var j :| 0 <= j < i && p == BlobOf(repoDir, files[j]) && files[j].size != 0;
    }
    assert files[i].size != 0 ==> IntoBlob(repoDir, files, i + 1, BlobOf(repoDir, files[i]));
  }

  lemma FilesNext(s: State, s1: State, s2: State, repoDir: string, files: seq<FileManifest>, f: FileManifest,
      suffix: string)
    requires f in files && FilesTo(s, s1, repoDir, files, suffix) && OtherFilesSame(s1, s2, repoDir, f, suffix)
    ensures FilesTo(s, s2, repoDir, files, suffix)
  {
    forall p | Foreign(repoDir, files, suffix, p) ensures SameFile(s.disk, s2.disk, p) {
      assert SameFile(s.disk, s1.disk, p) && SameFile(s1.disk, s2.disk, p);
    }
  }

  /** References that earlier files of this pull have left into the blob of the i-th: then it is
      found on disk. */
  lemma NewRefsMeanBlob(s: State, s1: State, repoDir: string, files: seq<FileManifest>, i: nat)
    requires i < |files| && NamesOk(files) && DiskTo(s, s1, repoDir, files, i)
    ensures IntoBlob(repoDir, files, i, BlobOf(repoDir, files[i])) ==> HasBlob(s1.disk, repoDir, files[i])
  {
    if IntoBlob(repoDir, files, i, BlobOf(repoDir, files[i])) {
      var j :| 0 <= j < i && BlobOf(repoDir, files[i]) == BlobOf(repoDir, files[j]) && files[j].size != 0;
      assert files[i] in files && files[j] in files;
      ExpectSettled(s.disk, repoDir, files, i, j);
      HasBlobIsSummary(s1.disk, repoDir, files[i]);
    }
  }

  lemma {:induction false} ExpectSettled(disk: Disk, repoDir: string, files: seq<FileManifest>, i: nat, j: nat)
    requires j < i <= |files| && NamesOk(files)
    ensures Expect(disk, repoDir, files, i, files[j].blobName) == Some(Settled(files[j]))
    decreases i
  {
    assert files[j] in files && files[i - 1] in files;
    if j < i - 1 { ExpectSettled(disk, repoDir, files, i - 1, j); }
  }

  lemma LiveNext(s: State, s1: State, s2: State, repoDir: string, files: seq<FileManifest>, i: nat, suffix: string)
    requires i < |files| && TempNamesFree(repoDir, files, suffix) && NamesOk(files)
    requires TempsFree(s, repoDir, files, suffix)
    requires RefsTo(s, s1, repoDir, files, i) && DiskTo(s, s1, repoDir, files, i) && LiveTo(s, s1, repoDir, files)
    requires OnlyBlobRefsDie(s1, s2, repoDir, files[i], suffix) && NothingWritten(s1, s2, repoDir, files[i])
    ensures LiveTo(s, s2, repoDir, files)
  {
    var f := files[i];
    assert f in files;
    NewRefsMeanBlob(s, s1, repoDir, files, i);
    TempStaysFree(s, s1, repoDir, files, i, suffix, f);
    forall x | x in s2.refs ensures RefLive(s2.disk, x, s2.refs[x]) || OldIntoBlob(s, s2, repoDir, files, x) {
      assert LiveOrOld(s1, s2, BlobOf(repoDir, f), x);
    }
  }

  lemma TempStaysFree(s: State, s1: State, repoDir: string, files: seq<FileManifest>, i: nat, suffix: string,
      f: FileManifest)
    requires i <= |files| && f in files && TempNamesFree(repoDir, files, suffix) && TempsFree(s, repoDir, files, suffix)
    requires RefsTo(s, s1, repoDir, files, i)
    ensures Unreferenced(s1.refs, PartPath(repoDir, f.blobName, suffix))
  {
    forall x | x in s1.refs ensures s1.refs[x].path != PartPath(repoDir, f.blobName, suffix) {
      if IntoBlob(repoDir, files, i, s1.refs[x].path) {
        var j :| 0 <= j < i && s1.refs[x].path == BlobOf(repoDir, files[j]) && files[j].size != 0;
        assert files[j] in files;
      }
    }
  }

  lemma SoundNext(s: State, s1: State, s2: State, repoDir: string, files: seq<FileManifest>, f: FileManifest,
      suffix: string, ok: bool)
    requires f in files && TempNamesFree(repoDir, files, suffix) && NamesOk(files) && BlobsSound(s, s1, repoDir, files)
    requires RefsOnlyInto(s1, s2, repoDir, f) && OtherFilesSame(s1, s2, repoDir, f, suffix)
    requires NothingWritten(s1, s2, repoDir, f)
    requires if ok then BlobDone(s2, repoDir, f) else forall x | x in s2.refs ::
      x in s1.refs && s2.refs[x] == s1.refs[x]
    ensures BlobsSound(s, s2, repoDir, files)
  {
    HasBlobIsSummary(s1.disk, repoDir, f);
    HasBlobIsSummary(s2.disk, repoDir, f);
    forall g | g in files ensures BlobSound(s, s2, repoDir, g) {
      assert BlobSound(s, s1, repoDir, g);
      if g.blobName != f.blobName { assert SameFile(s1.disk, s2.disk, BlobOf(repoDir, g)); }
    }
  }

  /** Under the hypotheses on names that each part needs, the state after the first i files. */
  ghost predicate PulledTo(s: State, s': State, repoDir: string, root: Cid, files: seq<FileManifest>, i: nat,
      suffix: string, unstored: set<Cid>)
    requires i <= |files|
  {
    && KeptTo(s, s', repoDir, files, i, suffix) && Left(s, s', root, files, true, AT_START)
    && (TempNamesFree(repoDir, files, suffix) ==>
          HasTo(s, s', repoDir, root, files, i, unstored) && DiskTo(s, s', repoDir, files, i))
  }

  /** The part of it that holds after a failure as well. */
  ghost predicate KeptTo(s: State, s': State, repoDir: string, files: seq<FileManifest>, i: nat, suffix: string)
    requires i <= |files|
  {
    && OnlyStores(s, s') && Honest(s')
    && RefsTo(s, s', repoDir, files, i) && FilesTo(s, s', repoDir, files, suffix)
    && (TempNamesFree(repoDir, files, suffix) && NamesOk(files) ==> BlobsSound(s, s', repoDir, files))
    && (TempNamesFree(repoDir, files, suffix) && NamesOk(files) && TempsFree(s, repoDir, files, suffix) ==>
          RefsLive(s) ==> LiveTo(s, s', repoDir, files))
  }

  /** Where a failed pull ended: at which file, and how that one did. */
  datatype Halt = Halt(at: nat, stop: Stop)

  const AT_START := Halt(0, AT_ONCE)

  /** The chunks that the failed file took back. */
  ghost predicate Gone(root: Cid, files: seq<FileManifest>, halt: Halt, x: Cid) {
    halt.at < |files| && FirstLeaf(root, files[halt.at], halt.stop.count, x)
  }

  /** How many files have written their blob. */
  function WrittenTo(files: seq<FileManifest>, ok: bool, halt: Halt): (i: nat)
    ensures i <= |files|
  {
    if ok || halt.at >= |files| then |files| else if halt.stop.wrote then halt.at + 1 else halt.at
  }

  /** Of what was stored, exactly those are gone, whoever had them first; nothing after a
      success. */
  ghost predicate Left(s: State, s': State, root: Cid, files: seq<FileManifest>, ok: bool, halt: Halt) {
    && (forall x | Has(s, x) :: Has(s', x) <==> ok || !Gone(root, files, halt, x))
    && (forall x | x in s.refs :: x in s'.refs <==> ok || !Gone(root, files, halt, x))
    && (forall x | x in s.refs && x in s'.refs :: s'.refs[x] == s.refs[x])
  }

  /** What a failed pull leaves: blocks of the DAG may have come, what has gone are leaves of a
      file that was not found on disk. */
  ghost predicate PullFailed(s: State, s': State, repoDir: string, root: Cid, files: seq<FileManifest>, halt: Halt) {
    && (forall x | Has(s', x) && !Has(s, x) :: InDag(x, root))
    && (forall x | Gone(root, files, halt, x) :: LostLeaf(s.disk, repoDir, root, files, x))
    && DiskTo(s, s', repoDir, files, WrittenTo(files, false, halt))
  }

  ghost predicate LostLeaf(disk: Disk, repoDir: string, root: Cid, files: seq<FileManifest>, x: Cid) {
    exists j :: 0 <= j < |files| && FreshAt(disk, repoDir, files, j) && files[j].size != 0 && LeafOf(root, files[j], x)
  }

  lemma KeptNext(s: State, s1: State, s2: State, repoDir: string, root: Cid, files: seq<FileManifest>, i: nat,
      suffix: string, unstored: set<Cid>, ok: bool, stop: Stop)
    requires i < |files| && PulledTo(s, s1, repoDir, root, files, i, suffix, unstored)
    requires FileStep(s1, s2, repoDir, root, files[i], suffix, unstored, ok, stop)
    ensures KeptTo(s, s2, repoDir, files, i + 1, suffix)
  {
    var f := files[i];
    assert f in files;
    RefsNext(s, s1, s2, repoDir, files, i);
    FilesNext(s, s1, s2, repoDir, files, f, suffix);
    if TempNamesFree(repoDir, files, suffix) && NamesOk(files) {
      SoundNext(s, s1, s2, repoDir, files, f, suffix, ok);
      if TempsFree(s, repoDir, files, suffix) && RefsLive(s) {
        LiveNext(s, s1, s2, repoDir, files, i, suffix);
      }
    }
  }

  lemma PulledNext(s: State, s1: State, s2: State, repoDir: string, root: Cid, files: seq<FileManifest>, i: nat,
      suffix: string, unstored: set<Cid>, stop: Stop)
    requires i < |files| && PulledTo(s, s1, repoDir, root, files, i, suffix, unstored)
    requires FileStep(s1, s2, repoDir, root, files[i], suffix, unstored, true, stop)
    ensures PulledTo(s, s2, repoDir, root, files, i + 1, suffix, unstored)
  {
    KeptNext(s, s1, s2, repoDir, root, files, i, suffix, unstored, true, stop);
    if TempNamesFree(repoDir, files, suffix) {
      HasNext(s, s1, s2, repoDir, root, files, i, unstored);
      DiskNext(s, s1, s2, repoDir, files, i, suffix);
    }
  }

  lemma LeftNext(s: State, s1: State, s2: State, repoDir: string, root: Cid, files: seq<FileManifest>, i: nat,
      stop: Stop)
    requires i < |files| && Left(s, s1, root, files, true, AT_START)
    requires FileFailed(s1, s2, repoDir, root, files[i], stop)
    ensures Left(s, s2, root, files, false, Halt(i, stop))
  {
  }

  lemma FailedDisk(s: State, s1: State, s2: State, repoDir: string, root: Cid, files: seq<FileManifest>, i: nat,
      suffix: string, stop: Stop)
    requires i < |files| && DiskTo(s, s1, repoDir, files, i) && TempNamesFree(repoDir, files, suffix)
    requires FileFailed(s1, s2, repoDir, root, files[i], stop) && OtherFilesSame(s1, s2, repoDir, files[i], suffix)
    ensures DiskTo(s, s2, repoDir, files, WrittenTo(files, false, Halt(i, stop)))
  {
    assert files[i] in files;
    if stop.wrote {
      DiskNext(s, s1, s2, repoDir, files, i, suffix);
    } else {
      forall f | f in files ensures Summary(s2.disk, repoDir, f.blobName) == Summary(s1.disk, repoDir, f.blobName) {
        assert SameFile(s1.disk, s2.disk, BlobOf(repoDir, f));
      }
    }
  }

  lemma FailedNext(s: State, s1: State, s2: State, repoDir: string, root: Cid, files: seq<FileManifest>, i: nat,
      suffix: string, unstored: set<Cid>, stop: Stop)
    requires i < |files| && HasTo(s, s1, repoDir, root, files, i, unstored) && DiskTo(s, s1, repoDir, files, i)
    requires FileFailed(s1, s2, repoDir, root, files[i], stop) && OtherFilesSame(s1, s2, repoDir, files[i], suffix)
    requires TempNamesFree(repoDir, files, suffix)
    ensures PullFailed(s, s2, repoDir, root, files, Halt(i, stop))
  {
    FailedDisk(s, s1, s2, repoDir, root, files, i, suffix, stop);
    assert files[i] in files;
    HasBlobIsSummary(s1.disk, repoDir, files[i]);
    forall x | Supplied(s.disk, repoDir, root, files, i, unstored, x) ensures InDag(x, root) {
      SuppliedInDag(s.disk, repoDir, root, files, i, unstored, x);
    }
    forall x | FirstLeaf(root, files[i], stop.count, x) ensures LostLeaf(s.disk, repoDir, root, files, x) {
      assert FreshAt(s.disk, repoDir, files, i);
    }
  }

  lemma SuppliedInDag(disk: Disk, repoDir: string, root: Cid, files: seq<FileManifest>, i: nat, unstored: set<Cid>,
      x: Cid)
    requires i <= |files| && Supplied(disk, repoDir, root, files, i, unstored, x)
    ensures InDag(x, root)
  {
    if !(x == root && !IsRaw(root) && root !in unstored) {
      var j :| 0 <= j < i && SuppliedBy(disk, repoDir, root, files, j, unstored, x);
      var parts := Split(files[j].path);
      if OnWay(root, parts, x) {
        var k :| 0 <= k <= |parts| && Lookup(root, parts[..k]) == Some(x);
        LookupInDag(root, parts[..k]);
      } else {
        LookupInDag(root, parts);
        InDagTransitive(x, Lookup(root, parts).value, root);
      }
    }
  }

  lemma {:induction false} LookupInDag(c: Cid, parts: Rel)
    ensures Lookup(c, parts).Some? ==> InDag(Lookup(c, parts).value, c)
    decreases |parts|
  {
    if parts != [] && Child(c, parts[0]).Some? {
      var child := Child(c, parts[0]).value;
      FindLinkBelow(c.content.links, parts[0]);
      LookupInDag(child, parts[1..]);
      if Lookup(child, parts[1..]).Some? { InDagTransitive(Lookup(child, parts[1..]).value, child, c); }
    }
  }

  /** What a pull of all files does, with or without success. */
  ghost predicate FilesPulled(s: State, s': State, repoDir: string, root: Cid, files: seq<FileManifest>,
      suffix: string, unstored: set<Cid>, ok: bool, halt: Halt)
  {
    && KeptTo(s, s', repoDir, files, |files|, suffix) && Left(s, s', root, files, ok, halt)
    && (TempNamesFree(repoDir, files, suffix) ==>
          if ok then HasTo(s, s', repoDir, root, files, |files|, unstored) && DiskTo(s, s', repoDir, files, |files|)
          else PullFailed(s, s', repoDir, root, files, halt))
  }

  lemma KeptFurther(s: State, s': State, repoDir: string, files: seq<FileManifest>, i: nat, suffix: string)
    requires i <= |files| && KeptTo(s, s', repoDir, files, i, suffix)
    ensures KeptTo(s, s', repoDir, files, |files|, suffix)
  {
    forall p | IntoBlob(repoDir, files, i, p) ensures IntoBlob(repoDir, files, |files|, p) {
      var j :| 0 <= j < i && p == BlobOf(repoDir, files[j]) && files[j].size != 0;
    }
  }

  /** Everything a fresh file needed has come from the peer. */
  ghost predicate AllChunksCame(answers: (nat, Cid) -> Answer, disk: Disk, repoDir: string, root: Cid,
      files: seq<FileManifest>, i: nat)
    requires i <= |files|
  {
    forall j | 0 <= j < i && FreshAt(disk, repoDir, files, j) && files[j].size != 0 ::
      ChunksCame(answers, root, files[j])
  }

  lemma RootFetched(s: State, s1: State, repoDir: string, root: Cid, files: seq<FileManifest>, suffix: string,
      unstored: set<Cid>)
    requires Honest(s) && Grown(s, root, s1) && Unfailed(s, s1, unstored)
    requires forall x | x in s1.blocks && x !in s.blocks :: x == root
    ensures KeptTo(s, s1, repoDir, files, 0, suffix) && KeptTo(s, s1, repoDir, files, |files|, suffix)
    ensures PullFailed(s, s1, repoDir, root, files, AT_START) && Left(s, s1, root, files, false, AT_START)
    ensures (IsRaw(root) || root in unstored || Has(s1, root))
      ==> PulledTo(s, s1, repoDir, root, files, 0, suffix, unstored)
  {
    GrownKeeps(s, root, s1);
    KeptFurther(s, s1, repoDir, files, 0, suffix);
  }

  lemma AllDecidesClosed(s: State, s': State, repoDir: string, root: Cid, files: seq<FileManifest>, suffix: string,
      unstored: set<Cid>, ok: bool, halt: Halt)
    requires Honest(s) && FilesPulled(s, s', repoDir, root, files, suffix, unstored, ok, halt)
    ensures RefsRaw(s) && Closed(s) ==> (Closed(s') <==> ok || NoneMapped(s, root, files, halt))
  {
    if RefsRaw(s) && Closed(s) {
      LossDecidesClosed(s, s');
      ClosedIffWhole(s);
    }
  }

  /** None of the chunks taken back belongs to a mapped revision. */
  ghost predicate NoneMapped(s: State, root: Cid, files: seq<FileManifest>, halt: Halt) {
    forall x | Gone(root, files, halt, x) :: !BelowMapped(s, x)
  }

  lemma ChunksNext(answers: (nat, Cid) -> Answer, s: State, s1: State, repoDir: string, root: Cid,
      files: seq<FileManifest>, i: nat)
    requires i < |files| && DiskTo(s, s1, repoDir, files, i) && AllChunksCame(answers, s.disk, repoDir, root, files, i)
    requires !HasBlob(s1.disk, repoDir, files[i]) && files[i].size != 0 ==> ChunksCame(answers, root, files[i])
    ensures AllChunksCame(answers, s.disk, repoDir, root, files, i + 1)
  {
    assert files[i] in files;
    HasBlobIsSummary(s1.disk, repoDir, files[i]);
  }

  /** Streams the DAG and materialises every manifest file, one after the other. Mapped revisions
      stay whole exactly when none of the chunks that a failure takes back belongs to one. */
  method ReconstructAll(n: Node, repoDir: string, root: Cid, files: seq<FileManifest>, peer: Peer, state: Transfer,
      budget: nat, suffix: string, faults: Faults)
    returns (ok: bool, ghost halt: Halt)
    requires Honest(n.View())
    modifies n`disk, n`refs, n`blocks, peer, state
    ensures FilesPulled(old(n.View()), n.View(), repoDir, root, files, suffix, faults.unstored, ok, halt)
    ensures RefsRaw(old(n.View())) && Closed(old(n.View()))
      ==> (Closed(n.View()) <==> ok || NoneMapped(old(n.View()), root, files, halt))
    ensures ok && TempNamesFree(repoDir, files, suffix)
      ==> AllChunksCame(peer.answers, old(n.disk), repoDir, root, files, |files|)
    ensures Favourable(peer.answers, root, files, budget, faults) ==> ok
  {
    ghost var s := n.View();
    halt := AT_START;
    if Served(peer.answers, root) { assert InDag(root, root); }
    var top := Get(n, peer, root, faults.unstored);
    RootFetched(s, n.View(), repoDir, root, files, suffix, faults.unstored);
    if top.None? {
      AllDecidesClosed(s, n.View(), repoDir, root, files, suffix, faults.unstored, false, halt);
      return false, halt;
    }
    ok, halt := PullEach(n, repoDir, root, files, peer, state, budget, suffix, faults, s);
    AllDecidesClosed(s, n.View(), repoDir, root, files, suffix, faults.unstored, ok, halt);
  }

  /** The files one after the other, up to the first failure. */
  method PullEach(n: Node, repoDir: string, root: Cid, files: seq<FileManifest>, peer: Peer, state: Transfer,
      budget: nat, suffix: string, faults: Faults, ghost s: State)
    returns (ok: bool, ghost halt: Halt)
    requires PulledTo(s, n.View(), repoDir, root, files, 0, suffix, faults.unstored)
    modifies n`disk, n`refs, n`blocks, peer, state
    ensures FilesPulled(s, n.View(), repoDir, root, files, suffix, faults.unstored, ok, halt)
    ensures ok && TempNamesFree(repoDir, files, suffix)
      ==> AllChunksCame(peer.answers, s.disk, repoDir, root, files, |files|)
    ensures Favourable(peer.answers, root, files, budget, faults) ==> ok
  {
    for i := 0 to |files|
      invariant PulledTo(s, n.View(), repoDir, root, files, i, suffix, faults.unstored)
      invariant TempNamesFree(repoDir, files, suffix) ==> AllChunksCame(peer.answers, s.disk, repoDir, root, files, i)
    {
      ok, halt := PullNext(n, repoDir, root, files, i, peer, state, budget, suffix, faults, s);
      if !ok { return; }
    }
    ok, halt := true, AT_START;
  }

  /** The next file. */
  method PullNext(n: Node, repoDir: string, root: Cid, files: seq<FileManifest>, i: nat, peer: Peer, state: Transfer,
      budget: nat, suffix: string, faults: Faults, ghost s: State)
    returns (ok: bool, ghost halt: Halt)
    requires i < |files| && PulledTo(s, n.View(), repoDir, root, files, i, suffix, faults.unstored)
    requires TempNamesFree(repoDir, files, suffix) ==> AllChunksCame(peer.answers, s.disk, repoDir, root, files, i)
    modifies n`disk, n`refs, n`blocks, peer, state
    ensures ok ==> PulledTo(s, n.View(), repoDir, root, files, i + 1, suffix, faults.unstored)
    ensures ok && TempNamesFree(repoDir, files, suffix)
      ==> AllChunksCame(peer.answers, s.disk, repoDir, root, files, i + 1)
    ensures !ok ==> FilesPulled(s, n.View(), repoDir, root, files, suffix, faults.unstored, false, halt)
    ensures Favourable(peer.answers, root, files, budget, faults) ==> ok
  {
    ghost var s1 := n.View();
    assert files[i] in files;
    ghost var stop;
    ok, stop := PullFile(n, repoDir, root, files[i], peer, state, budget, suffix, faults);
    halt := Halt(i, stop);
    if ok {
      PulledNext(s, s1, n.View(), repoDir, root, files, i, suffix, faults.unstored, stop);
      if TempNamesFree(repoDir, files, suffix) { ChunksNext(peer.answers, s, s1, repoDir, root, files, i); }
    } else {
      KeptNext(s, s1, n.View(), repoDir, root, files, i, suffix, faults.unstored, false, stop);
      KeptFurther(s, n.View(), repoDir, files, i + 1, suffix);
      LeftNext(s, s1, n.View(), repoDir, root, files, i, stop);
      if TempNamesFree(repoDir, files, suffix) {
        FailedNext(s, s1, n.View(), repoDir, root, files, i, suffix, faults.unstored, stop);
      }
    }
  }

  // ---- The whole pull ----

  /** What a peer answers to the map query. */
  datatype DummyField = NoDummy | BadDummy | DummyCid(cid: DhtCid)

  datatype MapResponse = MapResponse(ok: bool, commit: string, dummy: DummyField, actual: Option<Cid>,
      files: seq<FileManifest>)

  /** The response is about the commit asked for, its names are safe and its root decodes. */
  predicate Acceptable(commit: string, resp: MapResponse) {
    && resp.ok && resp.commit == commit
    && (resp.dummy == NoDummy || (resp.dummy.DummyCid? && FromCommit(commit) == Some(resp.dummy.cid)))
    && (forall f | f in resp.files :: SafeRelPath(f.path) && SafeBlobName(f.blobName))
    && resp.actual.Some?
  }

  /** No segment of the path is empty or a dot entry, and the blob name is such a segment. */
  ghost predicate SafelyNamed(f: FileManifest) {
    && (forall x | x in Split(f.path) :: x != "" && x != "." && x != "..") && '\\' !in f.path
    && f.blobName != "" && f.blobName != "." && f.blobName != ".." && '/' !in f.blobName && '\\' !in f.blobName
  }

  /** What makes an answer acceptable, by its fields; the dummy CID may be left out. */
  lemma AcceptableIff(commit: string, resp: MapResponse)
    ensures Acceptable(commit, resp) <==>
      && resp.ok && resp.commit == commit && resp.actual.Some? && resp.dummy != BadDummy
      && (resp.dummy.DummyCid? ==> FromCommit(commit) == Some(resp.dummy.cid))
      && forall f | f in resp.files :: SafelyNamed(f)
  {
    forall f | f in resp.files ensures SafelyNamed(f) <==> SafeRelPath(f.path) && SafeBlobName(f.blobName) {
      SafeBySegments(f.path);
    }
  }

  /** A peer's answer to the map query: the mapped root and manifest, or a refusal. */
  method HandleMap(n: Node, commit: string, relayed: bool, relayBulk: bool) returns (resp: MapResponse)
    ensures resp.commit == commit
    ensures resp.ok <==> ValidCommit(commit) && (relayed ==> relayBulk) && commit in n.mapping
    ensures resp.ok ==> resp == AnswerOf(n.mapping[commit]).(commit := commit)
    ensures resp.ok ==> resp.actual == n.mapping[commit].actual && resp.files == n.mapping[commit].files
    ensures resp.ok && n.mapping[commit].commit == commit ==>
      resp.dummy.DummyCid? && Some(resp.dummy.cid) == FromCommit(commit)
    ensures resp.ok && n.mapping[commit].commit == commit
      ==> (Acceptable(commit, resp) <==> Offerable(n.mapping[commit]))
  {
    if !ValidCommit(commit) || (relayed && !relayBulk) || commit !in n.mapping {
      return MapResponse(false, commit, NoDummy, None, []);
    }
    resp := AnswerOf(n.mapping[commit]).(commit := commit);
  }

  /** The entry as it goes over the wire; its dummy CID was recorded from its commit. */
  function AnswerOf(e: Entry): MapResponse {
    MapResponse(true, e.commit, if FromCommit(e.commit).Some? then DummyCid(FromCommit(e.commit).value) else NoDummy,
        e.actual, e.files)
  }

  predicate Offerable(e: Entry) {
    e.actual.Some? && forall f | f in e.files :: SafeRelPath(f.path) && SafeBlobName(f.blobName)
  }

  /** Everything of the DAG that the pull does not supply was stored before. */
  ghost predicate Covered(s: State, repoDir: string, root: Cid, files: seq<FileManifest>, unstored: set<Cid>) {
    forall x | InDag(x, root) && !Supplied(s.disk, repoDir, root, files, |files|, unstored, x) :: Has(s, x)
  }

  ghost predicate SuffixFree(repoId: string, t: RepoType, resp: MapResponse, suffix: string) {
    TempNamesFree(RepoDirName(repoId, t), resp.files, suffix)
  }

  /** What a pull from one provider does. An unacceptable answer changes nothing. */
  ghost predicate PullStep(s: State, s': State, repoId: string, t: RepoType, commit: string, resp: MapResponse,
      suffix: string, unstored: set<Cid>, ok: bool, halt: Halt)
  {
    if !Acceptable(commit, resp) then !ok && s' == s
    else
      && FilesPulled(s, s'.(mapping := s.mapping), RepoDirName(repoId, t), resp.actual.value, resp.files, suffix,
          unstored, ok, halt)
      && s'.mapping == if ok then s.mapping[commit := Entry(repoId, t, commit, resp.actual, resp.files)] else s.mapping
  }

  /** When mapped revisions are whole after it: a success depends on the root it maps, a failure
      on the chunks it takes back. */
  ghost predicate LeavesWhole(s: State, repoId: string, t: RepoType, commit: string, resp: MapResponse,
      unstored: set<Cid>, ok: bool, halt: Halt)
  {
    Acceptable(commit, resp) ==>
      if ok then Covered(s, RepoDirName(repoId, t), resp.actual.value, resp.files, unstored)
      else NoneMapped(s, resp.actual.value, resp.files, halt)
  }

  /** The root of a successful pull is whole exactly when every node of its DAG that the pull
      does not fetch was stored before: one that is neither on the way to a manifest file nor
      in the DAG of a manifest file that had to be fetched. */
  lemma PulledWholeIff(s: State, s': State, repoDir: string, root: Cid, files: seq<FileManifest>, unstored: set<Cid>)
    requires HasTo(s, s', repoDir, root, files, |files|, unstored)
    ensures Whole(s', root) <==> Covered(s, repoDir, root, files, unstored)
  {
  }

  lemma PullDecidesClosed(s: State, s': State, repoId: string, t: RepoType, commit: string, resp: MapResponse,
      suffix: string, unstored: set<Cid>, ok: bool, halt: Halt)
    requires PullStep(s, s', repoId, t, commit, resp, suffix, unstored, ok, halt) && Coherent(s) && Closed(s)
    requires Acceptable(commit, resp) ==> TempNamesFree(RepoDirName(repoId, t), resp.files, suffix)
    ensures Coherent(s')
    ensures Closed(s') <==> LeavesWhole(s, repoId, t, commit, resp, unstored, ok, halt)
  {
    if ok {
      RecordDecidesClosed(s, s', commit, s'.mapping[commit]);
      PulledWholeIff(s, s', RepoDirName(repoId, t), resp.actual.value, resp.files, unstored);
    } else {
      LossDecidesClosed(s, s');
      ClosedIffWhole(s);
    }
  }

  /** In particular a failure is harmless when no leaf of a file that had to be fetched belongs to
      a mapped revision. */
  lemma FailedPullKeepsClosed(s: State, s': State, repoId: string, t: RepoType, commit: string, resp: MapResponse,
      suffix: string, unstored: set<Cid>, halt: Halt)
    requires PullStep(s, s', repoId, t, commit, resp, suffix, unstored, false, halt) && Coherent(s) && Closed(s)
    requires Acceptable(commit, resp) ==> TempNamesFree(RepoDirName(repoId, t), resp.files, suffix)
    requires Acceptable(commit, resp) ==>
      forall x | LostLeaf(s.disk, RepoDirName(repoId, t), resp.actual.value, resp.files, x) :: !BelowMapped(s, x)
    ensures Closed(s')
  {
    PullDecidesClosed(s, s', repoId, t, commit, resp, suffix, unstored, false, halt);
  }

  /** What the blob of a file reads once it is written. */
  function ContentOf(f: FileManifest): Bytes {
    if f.size != 0 && f.sha256.Sha256? then f.sha256.content else []
  }

  /** A reference into a blob that one of the first i files has written reads its own bytes in the
      new content. */
  ghost predicate ReadsNew(s: State, repoDir: string, files: seq<FileManifest>, i: nat, x: Cid)
    requires i <= |files| && x in s.refs
  {
    forall j | 0 <= j < i && s.refs[x].path == BlobOf(repoDir, files[j]) :: ReadsAs(ContentOf(files[j]), s.refs[x], x)
  }

  /** Every reference that is not taken back does. */
  ghost predicate OldRefsFit(s: State, repoDir: string, root: Cid, files: seq<FileManifest>, ok: bool, halt: Halt) {
    forall x | x in s.refs && (ok || !Gone(root, files, halt, x)) ::
      ReadsNew(s, repoDir, files, WrittenTo(files, ok, halt), x)
  }

  lemma {:induction false} ExpectOld(disk: Disk, repoDir: string, files: seq<FileManifest>, i: nat, name: string)
    requires i <= |files| && forall j | 0 <= j < i :: files[j].blobName != name
    ensures Expect(disk, repoDir, files, i, name) == Summary(disk, repoDir, name)
    decreases i
  {
    if i > 0 { ExpectOld(disk, repoDir, files, i - 1, name); }
  }

  /** The blob of a file that has been written reads as its manifest says, any other as before. */
  lemma BlobAfter(s: State, s': State, repoDir: string, files: seq<FileManifest>, i: nat, f: FileManifest)
    requires i <= |files| && NamesOk(files) && DiskTo(s, s', repoDir, files, i) && f in files
    ensures (exists j :: 0 <= j < i && files[j].blobName == f.blobName)
      ==> BlobOf(repoDir, f) in s'.disk && s'.disk[BlobOf(repoDir, f)] == ContentOf(f)
    ensures !(exists j :: 0 <= j < i && files[j].blobName == f.blobName)
      ==> SameFile(s.disk, s'.disk, BlobOf(repoDir, f))
  {
    if j :| 0 <= j < i && files[j].blobName == f.blobName {
      assert files[j] in files;
      ExpectSettled(s.disk, repoDir, files, i, j);
    } else {
      ExpectOld(s.disk, repoDir, files, i, f.blobName);
    }
  }

  /** A live reference into a blob of the manifest is live afterwards exactly when it fits. */
  lemma OldRefAfter(s: State, s': State, repoDir: string, files: seq<FileManifest>, i: nat, f: FileManifest, x: Cid)
    requires i <= |files| && NamesOk(files) && DiskTo(s, s', repoDir, files, i) && f in files
    requires x in s.refs && RefLive(s.disk, x, s.refs[x]) && s.refs[x].path == BlobOf(repoDir, f)
    ensures RefLive(s'.disk, x, s.refs[x]) <==> ReadsNew(s, repoDir, files, i, x)
  {
    BlobAfter(s, s', repoDir, files, i, f);
    forall j | 0 <= j < i && s.refs[x].path == BlobOf(repoDir, files[j]) ensures ContentOf(files[j]) == ContentOf(f) {
      assert files[j] in files;
    }
  }

  /** Live references stay live exactly when each old one into a blob that the pull has written
      reads its own bytes in the new content. */
  lemma PullDecidesRefsLive(s: State, s': State, repoId: string, t: RepoType, commit: string, resp: MapResponse,
      suffix: string, unstored: set<Cid>, ok: bool, halt: Halt)
    requires PullStep(s, s', repoId, t, commit, resp, suffix, unstored, ok, halt) && RefsLive(s)
    requires Acceptable(commit, resp)
      ==> NamesOk(resp.files) && TempNamesFree(RepoDirName(repoId, t), resp.files, suffix)
    requires Acceptable(commit, resp) ==> TempsFree(s, RepoDirName(repoId, t), resp.files, suffix)
    ensures RefsLive(s') <==>
      (Acceptable(commit, resp) ==>
         OldRefsFit(s, RepoDirName(repoId, t), resp.actual.value, resp.files, ok, halt))
  {
    if Acceptable(commit, resp) {
      var dir, root, i := RepoDirName(repoId, t), resp.actual.value, WrittenTo(resp.files, ok, halt);
      forall x | x in s.refs && x in s'.refs
        ensures RefLive(s'.disk, x, s.refs[x]) <==> ReadsNew(s, dir, resp.files, i, x)
      {
        assert RefLive(s.disk, x, s.refs[x]);
        if f :| f in resp.files && s.refs[x].path == BlobOf(dir, f) {
          OldRefAfter(s, s', dir, resp.files, i, f, x);
        } else {
          ElsewhereFits(s, s', dir, resp.files, i, x);
        }
      }
      LiveWhenFit(s, s', dir, root, resp.files, ok, halt);
    }
  }

  lemma ElsewhereFits(s: State, s': State, repoDir: string, files: seq<FileManifest>, i: nat, x: Cid)
    requires i <= |files| && LiveTo(s, s', repoDir, files) && x in s.refs && x in s'.refs && s'.refs[x] == s.refs[x]
    requires !exists f :: f in files && s.refs[x].path == BlobOf(repoDir, f)
    ensures RefLive(s'.disk, x, s.refs[x]) && ReadsNew(s, repoDir, files, i, x)
  {
    forall j | 0 <= j < i ensures s.refs[x].path != BlobOf(repoDir, files[j]) { assert files[j] in files; }
  }

  lemma LiveWhenFit(s: State, s': State, repoDir: string, root: Cid, files: seq<FileManifest>, ok: bool, halt: Halt)
    requires LiveTo(s, s', repoDir, files) && Left(s, s', root, files, ok, halt)
    requires forall x | x in s.refs && x in s'.refs ::
      RefLive(s'.disk, x, s.refs[x]) <==> ReadsNew(s, repoDir, files, WrittenTo(files, ok, halt), x)
    ensures RefsLive(s') <==> OldRefsFit(s, repoDir, root, files, ok, halt)
  {
    if RefsLive(s') {
      forall x | x in s.refs && (ok || !Gone(root, files, halt, x))
        ensures ReadsNew(s, repoDir, files, WrittenTo(files, ok, halt), x)
      {
        assert x in s'.refs && RefLive(s'.disk, x, s'.refs[x]);
      }
    }
    if OldRefsFit(s, repoDir, root, files, ok, halt) {
      forall x | x in s'.refs ensures RefLive(s'.disk, x, s'.refs[x]) {
        if OldIntoBlob(s, s', repoDir, files, x) { assert ok || !Gone(root, files, halt, x); }
      }
    }
  }

  /** It is so when no blob of the manifest was referenced for other content; and then none is
      afterwards, for any manifest that includes this one. */
  lemma PullKeepsGuard(s: State, s': State, repoId: string, t: RepoType, commit: string, resp: MapResponse,
      suffix: string, unstored: set<Cid>, ok: bool, halt: Halt, all: seq<FileManifest>, other: string)
    requires PullStep(s, s', repoId, t, commit, resp, suffix, unstored, ok, halt)
    requires Acceptable(commit, resp) ==> forall f | f in resp.files :: f in all
    requires Guarded(s, RepoDirName(repoId, t), all, suffix) && Guarded(s, RepoDirName(repoId, t), all, other)
    ensures Guarded(s', RepoDirName(repoId, t), all, other)
    ensures RefsLive(s) ==> RefsLive(s')
  {
    if Acceptable(commit, resp) {
      FilesKeepGuard(s, s'.(mapping := s.mapping), RepoDirName(repoId, t), resp.files, suffix, all, other);
    }
  }

  lemma FilesKeepGuard(s: State, s': State, repoDir: string, files: seq<FileManifest>, suffix: string,
      all: seq<FileManifest>, other: string)
    requires KeptTo(s, s', repoDir, files, |files|, suffix) && forall f | f in files :: f in all
    requires Guarded(s, repoDir, all, suffix) && Guarded(s, repoDir, all, other)
    ensures Guarded(s', repoDir, all, other)
    ensures RefsLive(s) ==> RefsLive(s')
  {
    forall g | g in all ensures Unreferenced(s'.refs, PartPath(repoDir, g.blobName, other)) {
      TempUnreferenced(s, s', repoDir, files, all, g, other);
    }
    forall g | g in all ensures HasBlob(s'.disk, repoDir, g) || Unreferenced(s'.refs, BlobOf(repoDir, g)) {
      BlobStaysFree(s, s', repoDir, files, all, g, suffix);
    }
    if RefsLive(s) {
      OldAreLive(s, s', repoDir, files, suffix);
    }
  }

  lemma TempUnreferenced(s: State, s': State, repoDir: string, files: seq<FileManifest>, all: seq<FileManifest>,
      g: FileManifest, other: string)
    requires RefsTo(s, s', repoDir, files, |files|) && (forall f | f in files :: f in all) && g in all
    requires TempNamesFree(repoDir, all, other) && TempsFree(s, repoDir, all, other)
    ensures Unreferenced(s'.refs, PartPath(repoDir, g.blobName, other))
  {
    forall x | x in s'.refs ensures s'.refs[x].path != PartPath(repoDir, g.blobName, other) {
      if IntoBlob(repoDir, files, |files|, s'.refs[x].path) {
        var j :| 0 <= j < |files| && s'.refs[x].path == BlobOf(repoDir, files[j]) && files[j].size != 0;
        assert files[j] in files;
      }
    }
  }

  lemma BlobStaysFree(s: State, s': State, repoDir: string, files: seq<FileManifest>, all: seq<FileManifest>,
      g: FileManifest, suffix: string)
    requires RefsTo(s, s', repoDir, files, |files|) && FilesTo(s, s', repoDir, files, suffix)
    requires BlobsSound(s, s', repoDir, files)
    requires (forall f | f in files :: f in all) && g in all && TempNamesFree(repoDir, all, suffix) && NamesOk(all)
    requires HasBlob(s.disk, repoDir, g) || Unreferenced(s.refs, BlobOf(repoDir, g))
    ensures HasBlob(s'.disk, repoDir, g) || Unreferenced(s'.refs, BlobOf(repoDir, g))
  {
    if f :| f in files && f.blobName == g.blobName {
      assert BlobSound(s, s', repoDir, f);
    } else {
      assert Foreign(repoDir, files, suffix, BlobOf(repoDir, g));
      assert SameFile(s.disk, s'.disk, BlobOf(repoDir, g));
      forall x | x in s'.refs
        ensures IntoBlob(repoDir, files, |files|, s'.refs[x].path) ==> s'.refs[x].path != BlobOf(repoDir, g)
      {
        if IntoBlob(repoDir, files, |files|, s'.refs[x].path) {
          var j :| 0 <= j < |files| && s'.refs[x].path == BlobOf(repoDir, files[j]) && files[j].size != 0;
          assert files[j] in files;
        }
      }
    }
  }

  lemma OldAreLive(s: State, s': State, repoDir: string, files: seq<FileManifest>, suffix: string)
    requires RefsLive(s) && BlobsFree(s, repoDir, files) && BlobsSound(s, s', repoDir, files) && NamesOk(files)
    requires LiveTo(s, s', repoDir, files)
    ensures RefsLive(s')
  {
    forall x | x in s'.refs ensures RefLive(s'.disk, x, s'.refs[x]) {
      if OldIntoBlob(s, s', repoDir, files, x) {
        var f :| f in files && s.refs[x].path == BlobOf(repoDir, f);
        assert BlobSound(s, s', repoDir, f) && HasBlob(s.disk, repoDir, f);
        assert RefLive(s.disk, x, s.refs[x]);
      }
    }
  }

  /** Pulls from one provider: check its answer, rebuild every file, record the mapping. */
  method PullFrom(n: Node, repoId: string, t: RepoType, commit: string, resp: MapResponse, peer: Peer,
      state: Transfer, budget: nat, suffix: string, faults: Faults)
    returns (ok: bool, ghost halt: Halt)
    requires Honest(n.View())
    modifies n`disk, n`refs, n`blocks, n`mapping, peer, state
    ensures Honest(n.View())
    ensures PullStep(old(n.View()), n.View(), repoId, t, commit, resp, suffix, faults.unstored, ok, halt)
    ensures RefsRaw(old(n.View())) && Closed(old(n.View())) && SuffixFree(repoId, t, resp, suffix)
      ==> (Closed(n.View()) <==> LeavesWhole(old(n.View()), repoId, t, commit, resp, faults.unstored, ok, halt))
    ensures RefsLive(old(n.View())) && Guarded(old(n.View()), RepoDirName(repoId, t), resp.files, suffix)
      ==> RefsLive(n.View())
    ensures ok && NamesOk(resp.files) && TempNamesFree(RepoDirName(repoId, t), resp.files, suffix) ==>
      forall f | f in resp.files :: BlobDone(n.View(), RepoDirName(repoId, t), f)
    ensures ok && TempNamesFree(RepoDirName(repoId, t), resp.files, suffix) ==>
      AllChunksCame(peer.answers, old(n.disk), RepoDirName(repoId, t), resp.actual.value, resp.files, |resp.files|)
    ensures Acceptable(commit, resp) && Favourable(peer.answers, resp.actual.value, resp.files, budget, faults) ==> ok
    ensures !resp.ok || resp.commit != commit || resp.actual.None? ==> !ok && n.View() == old(n.View())
    ensures resp.dummy.BadDummy? || (resp.dummy.DummyCid? && FromCommit(commit) != Some(resp.dummy.cid))
      ==> !ok && n.View() == old(n.View())
    ensures forall f | f in resp.files &&
      ("" in Split(f.path) || "." in Split(f.path) || ".." in Split(f.path) || '\\' in f.path) ::
      !ok && n.View() == old(n.View())
    ensures forall f | f in resp.files &&
      (f.blobName == "" || f.blobName == "." || f.blobName == ".." || '/' in f.blobName || '\\' in f.blobName) ::
      !ok && n.View() == old(n.View())
  {
    ghost var s, dir := n.View(), RepoDirName(repoId, t);
    ok, halt := false, AT_START;
    if Acceptable(commit, resp) {
      ok, halt := ReconstructAll(n, RepoDirName(repoId, t), resp.actual.value, resp.files, peer, state, budget, suffix,
          faults);
      if ok { n.mapping := n.mapping[commit := Entry(repoId, t, commit, resp.actual, resp.files)]; }
    }
    PullFacts(s, n.View(), repoId, t, commit, resp, suffix, faults.unstored, ok, halt);
  }

  lemma PullFacts(s: State, s': State, repoId: string, t: RepoType, commit: string, resp: MapResponse, suffix: string,
      unstored: set<Cid>, ok: bool, halt: Halt)
    requires Honest(s) && PullStep(s, s', repoId, t, commit, resp, suffix, unstored, ok, halt)
    ensures RefsRaw(s) && Closed(s) && TempNamesFree(RepoDirName(repoId, t), resp.files, suffix) ==>
      (Closed(s') <==> LeavesWhole(s, repoId, t, commit, resp, unstored, ok, halt))
    ensures RefsLive(s) && Guarded(s, RepoDirName(repoId, t), resp.files, suffix) ==> RefsLive(s')
    ensures ok && NamesOk(resp.files) && TempNamesFree(RepoDirName(repoId, t), resp.files, suffix) ==>
      forall f | f in resp.files :: BlobDone(s', RepoDirName(repoId, t), f)
  {
    if RefsRaw(s) && Closed(s) && TempNamesFree(RepoDirName(repoId, t), resp.files, suffix) {
      PullDecidesClosed(s, s', repoId, t, commit, resp, suffix, unstored, ok, halt);
    }
    if Guarded(s, RepoDirName(repoId, t), resp.files, suffix) {
      PullKeepsGuard(s, s', repoId, t, commit, resp, suffix, unstored, ok, halt, resp.files, suffix);
    }
    if ok && NamesOk(resp.files) && TempNamesFree(RepoDirName(repoId, t), resp.files, suffix) {
      AllDone(s, s', RepoDirName(repoId, t), resp.files);
    }
  }

  /** The blob of every file that is done is there. */
  lemma AllThere(s: State, s': State, repoDir: string, files: seq<FileManifest>)
    requires DiskTo(s, s', repoDir, files, |files|)
    ensures forall f | f in files :: BlobOf(repoDir, f) in s'.disk
  {
    forall f | f in files ensures BlobOf(repoDir, f) in s'.disk {
      var j :| 0 <= j < |files| && files[j] == f;
      ExpectSome(s.disk, repoDir, files, |files|, j);
    }
  }

  lemma {:induction false} ExpectSome(disk: Disk, repoDir: string, files: seq<FileManifest>, i: nat, j: nat)
    requires j < i <= |files|
    ensures Expect(disk, repoDir, files, i, files[j].blobName).Some?
    decreases i
  {
    if j < i - 1 { ExpectSome(disk, repoDir, files, i - 1, j); }
  }

  lemma AllDone(s: State, s': State, repoDir: string, files: seq<FileManifest>)
    requires NamesOk(files) && DiskTo(s, s', repoDir, files, |files|)
    ensures forall f | f in files :: BlobDone(s', repoDir, f)
  {
    forall f | f in files ensures BlobDone(s', repoDir, f) {
      var j :| 0 <= j < |files| && files[j] == f;
      ExpectSettled(s.disk, repoDir, files, |files|, j);
    }
  }
}
