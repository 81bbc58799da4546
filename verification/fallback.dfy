/** The Hugging Face fallback: download, verify, publish, link, and ingest. */
module Fallback {
  import opened Content
  import opened Dummy
  import opened Names
  import opened Store
  import opened Paths
  import opened Snapshot
  import opened Share
  import Ingest
  import Reconstruct
  import TreeJson

  // ---- The manifest ----

  datatype LfsInfo = LfsInfo(size: int, sha256: Digest)

  /** One file as the Hub lists it. */
  datatype Sibling = Sibling(path: string, blobId: string, size: int, lfs: Option<LfsInfo>)

  predicate Listable(s: Sibling) {
    && SafeBlobName(s.blobId) && SafeRelPath(s.path)
    && s.size >= 0 && (s.lfs.Some? ==> s.lfs.value.size >= 0)
  }

  function ManifestOf(s: Sibling, xet: map<string, string>): FileManifest {
    var x := if s.path in xet then xet[s.path] else "";
    match s.lfs
    case None => FileManifest(s.path, s.blobId, s.size, NoDigest, false, x, None)
    case Some(l) => FileManifest(s.path, s.blobId, l.size, l.sha256, true, x, None)
  }

  function TotalSize(files: seq<FileManifest>): int {
    if files == [] then 0 else TotalSize(files[..|files| - 1]) + files[|files| - 1].size
  }

  /** The file as the Hub describes it, an LFS file by its LFS data. */
  ghost predicate Describes(s: Sibling, xet: map<string, string>, f: FileManifest) {
    && f.path == s.path && f.blobName == s.blobId && f.lfs == s.lfs.Some? && f.src == None
    && (s.lfs.Some? ==> f.size == s.lfs.value.size && f.sha256 == s.lfs.value.sha256)
    && (s.lfs.None? ==> f.size == s.size && f.sha256 == NoDigest)
    && (if s.path in xet then f.xetHash == xet[s.path] else f.xetHash == "")
  }

  /** Turns the Hub's list into a manifest; one bad name or size refuses the whole list. */
  method ManifestFromRevision(siblings: seq<Sibling>, xet: map<string, string>)
    returns (r: Option<(seq<FileManifest>, int)>)
    ensures r.Some? <==> forall s | s in siblings :: Listable(s)
    ensures r.Some? ==> |r.value.0| == |siblings| && r.value.1 == TotalSize(r.value.0)
    ensures r.Some? ==> forall i | 0 <= i < |siblings| ::
      r.value.0[i] == ManifestOf(siblings[i], xet) && r.value.0[i].size >= 0
    ensures r.Some? ==> forall i | 0 <= i < |siblings| :: Describes(siblings[i], xet, r.value.0[i])
  {
    var files: seq<FileManifest>, total := [], 0;
    for i := 0 to |siblings|
      invariant |files| == i && total == TotalSize(files)
      invariant forall s | s in siblings[..i] :: Listable(s)
      invariant forall j | 0 <= j < i :: files[j] == ManifestOf(siblings[j], xet) && files[j].size >= 0
    {
      var s := siblings[i];
      assert s in siblings && siblings[..i + 1] == siblings[..i] + [s];
      if !SafeBlobName(s.blobId) || !SafeRelPath(s.path) { return None; }
      if s.size < 0 || (s.lfs.Some? && s.lfs.value.size < 0) { return None; }
      var f := ManifestOf(s, xet);
      assert (files + [f])[..i] == files;
      files, total := files + [f], total + f.size;
    }
    assert siblings[..|siblings|] == siblings;
    r := Some((files, total));
  }

  // ---- One blob ----

  /** What the Hub sends for a file: the stream breaks after some bytes, or it ends. */
  datatype Download = Broken(partial: Bytes) | Complete(data: Bytes)

  /** The Hub's answers by file number, the git blob id of a content, the random suffix of
      temporary names, and the steps of the local machine that fail. */
  datatype Hub = Hub(download: nat -> Download, gitId: Bytes -> string, suffix: string, createFails: set<nat>,
      closeFails: set<nat>, renameFails: set<nat>)

  function TempPath(repoDir: string, f: FileManifest, suffix: string): Path {
    BlobPath(repoDir, f.blobName + "." + suffix + ".download")
  }

  lemma TempIsNotBlob(repoDir: string, f: FileManifest, suffix: string)
    ensures TempPath(repoDir, f, suffix) != BlobPath(repoDir, f.blobName)
    ensures f.blobName == "a" && suffix == "b" ==> TempPath(repoDir, f, suffix) == BlobPath(repoDir, "a.b.download")
  {
    assert |f.blobName + "." + suffix + ".download"| > |f.blobName|;
  }

  /** A file of the manifest's length is at the blob's path. Its content is not looked at. */
  predicate HasSize(disk: Disk, repoDir: string, f: FileManifest) {
    BlobPath(repoDir, f.blobName) in disk && |disk[BlobPath(repoDir, f.blobName)]| == f.size
  }

  /** The content is the one the Hub declares: by its SHA-256 where there is one, else by its
      git blob id, which then is the name of the blob. */
  predicate Verifies(f: FileManifest, data: Bytes, gitId: Bytes -> string) {
    |data| == f.size && if f.sha256 != NoDigest then Sha256(data) == f.sha256 else gitId(data) == f.blobName
  }

  /** Nothing fails between opening the temporary file and renaming it. */
  predicate Arrives(hub: Hub, i: nat, f: FileManifest) {
    && i !in hub.createFails && i !in hub.closeFails && i !in hub.renameFails
    && hub.download(i).Complete? && Verifies(f, hub.download(i).data, hub.gitId)
  }

  ghost predicate BlobThere(disk: Disk, blob: Path, size: int) {
    blob in disk && |disk[blob]| == size
  }

  /** Downloads one file under a temporary name, verifies it, and renames it into place. */
  method FetchBlob(n: Node, repoDir: string, files: array<FileManifest>, i: nat, hub: Hub, state: Reconstruct.Transfer)
    returns (ok: bool)
    requires i < files.Length
    modifies n`disk, files, state
    ensures ok <==> HasSize(old(n.disk), repoDir, old(files[i])) || Arrives(hub, i, old(files[i]))
    ensures var f := old(files[i]);
      if HasSize(old(n.disk), repoDir, f) then n.disk == old(n.disk) && files[i] == f
      else if ok then
        var data := hub.download(i).data;
        n.disk == (old(n.disk) - {TempPath(repoDir, f, hub.suffix)})[BlobPath(repoDir, f.blobName) := data] &&
        files[i] == f.(sha256 := Sha256(data))
      else files[i] == f && (n.disk == old(n.disk) || n.disk == old(n.disk) - {TempPath(repoDir, f, hub.suffix)})
    ensures forall j | 0 <= j < files.Length && j != i :: files[j] == old(files[j])
    ensures state.done == old(state.done) + if ok then old(files[i]).size else 0
    ensures BlobThere(old(n.disk), BlobPath(repoDir, old(files[i]).blobName), old(files[i]).size) ==>
      ok && n.disk == old(n.disk)
    ensures !BlobThere(old(n.disk), BlobPath(repoDir, old(files[i]).blobName), old(files[i]).size) && ok ==>
      var f := old(files[i]);
      && BlobThere(n.disk, BlobPath(repoDir, f.blobName), f.size)
      && var data := n.disk[BlobPath(repoDir, f.blobName)];
         if f.sha256 != NoDigest then Sha256(data) == f.sha256 else hub.gitId(data) == f.blobName
  {
    var f := files[i];
    var blob := BlobPath(repoDir, f.blobName);
    if HasSize(n.disk, repoDir, f) {
      state.done := state.done + f.size;
      return true;
    }
    var tmp := TempPath(repoDir, f, hub.suffix);
    TempIsNotBlob(repoDir, f, hub.suffix);
    if i in hub.createFails { return false; }
    ghost var before := n.disk;
    var d := hub.download(i);
    var written := if d.Complete? then d.data else d.partial;
    n.disk := n.disk[tmp := written];
    assert n.disk - {tmp} == before - {tmp};
    var good := d.Complete? && i !in hub.closeFails && |written| == f.size;
    if good && f.sha256 != NoDigest && Sha256(written) != f.sha256 { good := false; }
    if good && f.sha256 == NoDigest && hub.gitId(written) != f.blobName { good := false; }
    if !good || i in hub.renameFails {
      n.disk := n.disk - {tmp};
      return false;
    }
    files[i] := f.(sha256 := Sha256(written));
    n.disk := (n.disk - {tmp})[blob := written];
    state.done := state.done + |written|;
    ok := true;
  }

  // ---- All of them ----

  /** A blob name stands for one content within the manifest, and temporary names are not blob
      names. */
  ghost predicate NamesAgree(repoDir: string, files: seq<FileManifest>, suffix: string) {
    && (forall f, g | f in files && g in files && f.blobName == g.blobName :: f.size == g.size && f.sha256 == g.sha256)
    && (forall f, g | f in files && g in files :: TempPath(repoDir, f, suffix) != BlobPath(repoDir, g.blobName))
  }

  /** A blob that was there with the right size is as it was; any other that has come to have
      it is what the Hub declares. */
  ghost predicate Trusted(disk: Disk, disk': Disk, repoDir: string, f: FileManifest, gitId: Bytes -> string) {
    var blob := BlobPath(repoDir, f.blobName);
    if HasSize(disk, repoDir, f) then HasSize(disk', repoDir, f) && disk'[blob] == disk[blob]
    else HasSize(disk', repoDir, f) ==> Verifies(f, disk'[blob], gitId)
  }

  ghost predicate AllTrusted(disk: Disk, disk': Disk, repoDir: string, files: seq<FileManifest>, gitId: Bytes -> string)
  {
    forall f | f in files :: Trusted(disk, disk', repoDir, f, gitId)
  }

  /** Files that are no blob or temporary file of the manifest, and blobs that had the right
      size, are as they were. */
  ghost predicate OthersSame(disk: Disk, disk': Disk, repoDir: string, files: seq<FileManifest>, suffix: string) {
    forall p | forall f | f in files ::
      p != TempPath(repoDir, f, suffix) && (p == BlobPath(repoDir, f.blobName) ==> HasSize(disk, repoDir, f)) ::
      SameFile(disk, disk', p)
  }

  ghost predicate FilledTo(disk: Disk, repoDir: string, files: seq<FileManifest>, i: nat) {
    forall j | 0 <= j < i <= |files| :: HasSize(disk, repoDir, files[j])
  }

  function BlobAt(disk: Disk, repoDir: string, name: string): Option<Bytes> {
    if BlobPath(repoDir, name) in disk then Some(disk[BlobPath(repoDir, name)]) else None
  }

  /** What the blob of that name holds once the first i files are done, told from the disk before:
      what it held, until a file of that name does not find its size. */
  function Downloaded(disk: Disk, repoDir: string, files: seq<FileManifest>, hub: Hub, i: nat, name: string)
    : Option<Bytes>
    requires i <= |files|
  {
    if i == 0 then BlobAt(disk, repoDir, name)
    else
      var before := Downloaded(disk, repoDir, files, hub, i - 1, name);
      if files[i - 1].blobName != name || (before.Some? && |before.value| == files[i - 1].size) then before
      else match hub.download(i - 1)
           case Complete(data) => Some(data)
           case Broken(_) => before
  }

  ghost predicate DownloadedTo(disk0: Disk, disk: Disk, repoDir: string, files: seq<FileManifest>, i: nat, hub: Hub) {
    i <= |files| &&
    forall f | f in files :: BlobAt(disk, repoDir, f.blobName) == Downloaded(disk0, repoDir, files, hub, i, f.blobName)
  }

  /** The change that one download makes. */
  ghost predicate Fetched(disk: Disk, disk': Disk, repoDir: string, f: FileManifest, hub: Hub) {
    var tmp, blob := TempPath(repoDir, f, hub.suffix), BlobPath(repoDir, f.blobName);
    disk' == disk || (!HasSize(disk, repoDir, f) &&
      (disk' == disk - {tmp} || exists data :: Verifies(f, data, hub.gitId) && disk' == (disk - {tmp})[blob := data]))
  }

  lemma FetchKeepsTrust(disk0: Disk, disk: Disk, disk': Disk, repoDir: string, files: seq<FileManifest>, i: nat,
      hub: Hub)
    requires i < |files| && NamesAgree(repoDir, files, hub.suffix) && AllTrusted(disk0, disk, repoDir, files, hub.gitId)
    requires Fetched(disk, disk', repoDir, files[i], hub)
    ensures AllTrusted(disk0, disk', repoDir, files, hub.gitId)
    ensures FilledTo(disk, repoDir, files, i) ==> FilledTo(disk', repoDir, files, i)
  {
  }

  lemma FetchKeepsOthers(disk0: Disk, disk: Disk, disk': Disk, repoDir: string, files: seq<FileManifest>,
      f: FileManifest, hub: Hub)
    requires f in files && AllTrusted(disk0, disk, repoDir, files, hub.gitId)
    requires OthersSame(disk0, disk, repoDir, files, hub.suffix)
    requires Fetched(disk, disk', repoDir, f, hub)
    ensures OthersSame(disk0, disk', repoDir, files, hub.suffix)
  {
    forall p | forall g | g in files ::
      p != TempPath(repoDir, g, hub.suffix) && (p == BlobPath(repoDir, g.blobName) ==> HasSize(disk0, repoDir, g))
      ensures SameFile(disk0, disk', p)
    {
      assert Trusted(disk0, disk, repoDir, f, hub.gitId);
      assert SameFile(disk0, disk, p);
    }
  }

  /** The first i files are there, and nothing unverified was published. */
  ghost predicate FetchedTo(disk0: Disk, disk: Disk, repoDir: string, files: seq<FileManifest>, i: nat, hub: Hub) {
    && AllTrusted(disk0, disk, repoDir, files, hub.gitId) && OthersSame(disk0, disk, repoDir, files, hub.suffix)
    && FilledTo(disk, repoDir, files, i) && DownloadedTo(disk0, disk, repoDir, files, i, hub)
  }

  /** How the disk is after the i-th download, finished or not. */
  ghost predicate DiskAfter(disk: Disk, disk': Disk, repoDir: string, f: FileManifest, i: nat, hub: Hub, ok: bool) {
    var tmp, blob := TempPath(repoDir, f, hub.suffix), BlobPath(repoDir, f.blobName);
    if HasSize(disk, repoDir, f) then disk' == disk && ok
    else if ok then hub.download(i).Complete? && disk' == (disk - {tmp})[blob := hub.download(i).data]
    else disk' == disk || disk' == disk - {tmp}
  }

  lemma DownloadedNext(disk0: Disk, disk: Disk, disk': Disk, repoDir: string, files: seq<FileManifest>, i: nat,
      hub: Hub, ok: bool)
    requires i < |files| && NamesAgree(repoDir, files, hub.suffix) && DownloadedTo(disk0, disk, repoDir, files, i, hub)
    requires DiskAfter(disk, disk', repoDir, files[i], i, hub, ok)
    ensures DownloadedTo(disk0, disk', repoDir, files, if ok then i + 1 else i, hub)
  {
    assert files[i] in files;
    forall f | f in files
      ensures BlobAt(disk', repoDir, f.blobName) ==
        Downloaded(disk0, repoDir, files, hub, if ok then i + 1 else i, f.blobName)
    {
      assert BlobPath(repoDir, f.blobName) != TempPath(repoDir, files[i], hub.suffix);
    }
  }

  lemma FetchedNext(disk0: Disk, disk: Disk, disk': Disk, repoDir: string, files: seq<FileManifest>, i: nat, hub: Hub,
      ok: bool)
    requires i < |files| && NamesAgree(repoDir, files, hub.suffix) && FetchedTo(disk0, disk, repoDir, files, i, hub)
    requires Fetched(disk, disk', repoDir, files[i], hub) && DiskAfter(disk, disk', repoDir, files[i], i, hub, ok)
    requires ok ==> HasSize(disk', repoDir, files[i])
    ensures FetchedTo(disk0, disk', repoDir, files, if ok then i + 1 else i, hub)
  {
    DownloadedNext(disk0, disk, disk', repoDir, files, i, hub, ok);
    FetchKeepsTrust(disk0, disk, disk', repoDir, files, i, hub);
    FetchKeepsOthers(disk0, disk, disk', repoDir, files, files[i], hub);
  }

  /** files is fs with the hash of some entries filled in, none of them from the i-th on. */
  predicate HashedTo(fs: seq<FileManifest>, files: seq<FileManifest>, i: nat) {
    && |files| == |fs| && (forall j | 0 <= j < |fs| :: files[j] == fs[j].(sha256 := files[j].sha256))
    && (forall j | i <= j < |fs| :: files[j] == fs[j])
  }

  /** Downloads what the cache lacks. Whether it gets to the end or not, no content that was
      not verified is published, and no other file is touched. */
  method FetchAll(n: Node, repoDir: string, files: array<FileManifest>, hub: Hub, state: Reconstruct.Transfer)
    returns (ok: bool, ghost fetched: nat)
    modifies n`disk, files, state
    ensures fetched <= files.Length && (ok ==> fetched == files.Length)
    ensures NamesAgree(repoDir, old(files[..]), hub.suffix)
      ==> FetchedTo(old(n.disk), n.disk, repoDir, old(files[..]), fetched, hub)
    ensures ok ==> state.done == old(state.done) + TotalSize(old(files[..]))
    ensures HashedTo(old(files[..]), files[..], files.Length)
    ensures (forall i | 0 <= i < files.Length :: Arrives(hub, i, old(files[i]))) ==> ok
  {
    ghost var fs := files[..];
    fetched := 0;
    for i := 0 to files.Length
      invariant fetched == i
      invariant NamesAgree(repoDir, fs, hub.suffix) ==> FetchedTo(old(n.disk), n.disk, repoDir, fs, i, hub)
      invariant state.done == old(state.done) + TotalSize(fs[..i])
      invariant HashedTo(fs, files[..], i)
    {
      assert fs[..i + 1][..i] == fs[..i];
      ok := FetchNext(n, repoDir, files, i, hub, state, fs, old(n.disk));
      if !ok { return; }
      fetched := i + 1;
    }
    assert fs[..|fs|] == fs;
    ok := true;
  }

  method FetchNext(n: Node, repoDir: string, files: array<FileManifest>, i: nat, hub: Hub,
      state: Reconstruct.Transfer, ghost fs: seq<FileManifest>, ghost disk0: Disk)
    returns (ok: bool)
    requires i < files.Length == |fs| && HashedTo(fs, files[..], i)
    requires NamesAgree(repoDir, fs, hub.suffix) ==> FetchedTo(disk0, n.disk, repoDir, fs, i, hub)
    modifies n`disk, files, state
    ensures NamesAgree(repoDir, fs, hub.suffix) ==> FetchedTo(disk0, n.disk, repoDir, fs, if ok then i + 1 else i, hub)
    ensures HashedTo(fs, files[..], i + 1)
    ensures ok ==> state.done == old(state.done) + fs[i].size
    ensures Arrives(hub, i, fs[i]) ==> ok
  {
    ghost var disk := n.disk;
    assert files[..][i] == fs[i];
    ok := FetchBlob(n, repoDir, files, i, hub, state);
    assert Fetched(disk, n.disk, repoDir, fs[i], hub);
    if NamesAgree(repoDir, fs, hub.suffix) { FetchedNext(disk0, disk, n.disk, repoDir, fs, i, hub, ok); }
  }

  // ---- The whole fallback ----

  /** No file that is downloaded over is referenced. */
  ghost predicate NoneOverwritten(s: State, repoDir: string, files: seq<FileManifest>, suffix: string) {
    forall c, f | c in s.refs && f in files :: s.refs[c].path != TempPath(repoDir, f, suffix) &&
      (s.refs[c].path == BlobPath(repoDir, f.blobName) ==> HasSize(s.disk, repoDir, f))
  }

  /** What it takes for references to stay live: no such file, and no place of a link, is
      referenced. */
  ghost predicate NoneReferenced(s: State, repoDir: string, commit: string, files: seq<FileManifest>, suffix: string) {
    && NoneOverwritten(s, repoDir, files, suffix)
    && forall c | c in s.refs :: s.refs[c].path !in LinkSet(repoDir, commit, files)
  }

  ghost predicate Unclaimed(s: State, repoDir: string, commit: string, files: seq<FileManifest>, suffix: string) {
    NamesAgree(repoDir, files, suffix) && NoneReferenced(s, repoDir, commit, files, suffix)
  }

  lemma DownloadsKeepRefsLive(s: State, s': State, repoDir: string, files: seq<FileManifest>, suffix: string)
    requires RefsLive(s) && NoneOverwritten(s, repoDir, files, suffix) && s'.refs == s.refs
    requires OthersSame(s.disk, s'.disk, repoDir, files, suffix)
    ensures RefsLive(s')
  {
    forall c | c in s'.refs ensures RefLive(s'.disk, c, s'.refs[c]) {
      assert RefLive(s.disk, c, s.refs[c]) && SameFile(s.disk, s'.disk, s.refs[c].path);
    }
  }

  /** Filling in hashes moves no link. */
  lemma SamePlaces(repoDir: string, commit: string, fs: seq<FileManifest>, files: seq<FileManifest>)
    requires HashedTo(fs, files, |fs|)
    ensures LinkSet(repoDir, commit, files) <= LinkSet(repoDir, commit, fs)
  {
    forall p | p in LinkSet(repoDir, commit, files) ensures p in LinkSet(repoDir, commit, fs) {
      var f :| f in files && LinkPath(repoDir, commit, f) == p;
      var j :| 0 <= j < |files| && files[j] == f;
      assert fs[j] in fs && LinkPath(repoDir, commit, fs[j]) == p;
    }
  }

  lemma LinkingKeepsRefsLive(s: State, s1: State, s': State, repoDir: string, commit: string, fs: seq<FileManifest>,
      suffix: string, files: seq<FileManifest>)
    requires RefsLive(s1) && NoneReferenced(s, repoDir, commit, fs, suffix) && s1.refs == s.refs && s'.refs == s.refs
    requires HashedTo(fs, files, |fs|) && OnlyReplaced(s1.disk, s'.disk, LinkSet(repoDir, commit, files))
    ensures RefsLive(s')
  {
    SamePlaces(repoDir, commit, fs, files);
    forall c | c in s'.refs ensures RefLive(s'.disk, c, s'.refs[c]) {
      assert RefLive(s1.disk, c, s.refs[c]);
      assert s.refs[c].path !in LinkSet(repoDir, commit, fs);
    }
  }

  function Manifest(siblings: seq<Sibling>, xet: map<string, string>): seq<FileManifest> {
    seq(|siblings|, i requires 0 <= i < |siblings| => ManifestOf(siblings[i], xet))
  }

  /** What the downloads do, with or without success, when names agree. */
  ghost predicate DownloadStep(s: State, s': State, repoDir: string, files: seq<FileManifest>, hub: Hub, fetched: nat) {
    && s' == s.(disk := s'.disk) && fetched <= |files|
    && (NamesAgree(repoDir, files, hub.suffix) ==> FetchedTo(s.disk, s'.disk, repoDir, files, fetched, hub))
  }

  /** All files are there with their sizes. */
  ghost predicate Filled(disk: Disk, repoDir: string, files: seq<FileManifest>) {
    forall f | f in files :: HasSize(disk, repoDir, f)
  }

  /** Once all are fetched and linked, none is missing. */
  lemma LinkedStaysFilled(s: State, mid: State, s': State, repoDir: string, commit: string, files: seq<FileManifest>,
      hub: Hub, linked: seq<FileManifest>, placed: nat)
    requires DownloadStep(s, mid, repoDir, files, hub, |files|) && LinkStep(mid, s', repoDir, commit, linked, placed)
    ensures NamesAgree(repoDir, files, hub.suffix) ==> Filled(s'.disk, repoDir, files)
  {
    forall f | f in files && NamesAgree(repoDir, files, hub.suffix) ensures HasSize(s'.disk, repoDir, f) {
      var j :| 0 <= j < |files| && files[j] == f;
      assert HasSize(mid.disk, repoDir, files[j]);
    }
  }

  function Listed(siblings: Option<seq<Sibling>>, xet: map<string, string>): seq<FileManifest> {
    if siblings.Some? then Manifest(siblings.value, xet) else []
  }

  /** The snapshot holds nothing but places of these links, none is in the way of another, and one
      shows. */
  ghost predicate InPlace(s: State, repoDir: string, commit: string, fs: seq<FileManifest>) {
    && SnapshotEntries(s.disk, s.links, repoDir, commit) <= LinkSet(repoDir, commit, fs)
    && (forall f | f in fs :: !Blocked(LinkSet(repoDir, commit, fs), repoDir, commit, f.path))
    && exists f :: f in fs && !Bookkeeping(f.path)
  }

  /** The Hub lists good files only, all of them arrive, and they can be placed. */
  ghost predicate HubObtains(s: State, repoDir: string, commit: string, siblings: Option<seq<Sibling>>,
      xet: map<string, string>, hub: Hub)
  {
    && siblings.Some? && (forall x | x in siblings.value :: Listable(x))
    && NamesAgree(repoDir, Listed(siblings, xet), hub.suffix)
    && (forall i | 0 <= i < |Listed(siblings, xet)| :: Arrives(hub, i, Listed(siblings, xet)[i]))
    && InPlace(s, repoDir, commit, Listed(siblings, xet))
  }

  /** The names in the manifest are safe. */
  predicate SafeNames(fs: seq<FileManifest>) {
    forall f | f in fs :: SafeRelPath(f.path) && SafeBlobName(f.blobName)
  }

  lemma FetchedIsPlaceable(s: State, mid: State, repoDir: string, commit: string, fs: seq<FileManifest>, hub: Hub,
      files: seq<FileManifest>)
    requires DownloadStep(s, mid, repoDir, fs, hub, |fs|) && NamesAgree(repoDir, fs, hub.suffix)
    requires InPlace(s, repoDir, commit, fs) && SafeNames(fs) && HashedTo(fs, files, |fs|)
    ensures Placeable(mid, repoDir, commit, files)
    ensures SnapshotEntries(mid.disk, mid.links, repoDir, commit) <= LinkSet(repoDir, commit, fs)
  {
    var entries := SnapshotEntries(mid.disk, mid.links, repoDir, commit);
    forall p | p in entries ensures p in SnapshotEntries(s.disk, s.links, repoDir, commit) {
      assert SameFile(s.disk, mid.disk, p);
    }
    SamePlaces(repoDir, commit, fs, files);
    forall f | f in files
      ensures SafeRelPath(f.path) && SafeBlobName(f.blobName) && BlobPath(repoDir, f.blobName) in mid.disk
      ensures !Blocked(mid.disk.Keys + mid.links.Keys + LinkSet(repoDir, commit, files), repoDir, commit, f.path)
    {
      var j :| 0 <= j < |files| && files[j] == f;
      assert fs[j] in fs && HasSize(mid.disk, repoDir, fs[j]);
      NotBlocked(mid, repoDir, commit, fs, files, fs[j]);
    }
  }

  lemma NotBlocked(mid: State, repoDir: string, commit: string, fs: seq<FileManifest>, files: seq<FileManifest>,
      f: FileManifest)
    requires SnapshotEntries(mid.disk, mid.links, repoDir, commit) <= LinkSet(repoDir, commit, fs)
    requires LinkSet(repoDir, commit, files) <= LinkSet(repoDir, commit, fs)
    requires !Blocked(LinkSet(repoDir, commit, fs), repoDir, commit, f.path)
    ensures !Blocked(mid.disk.Keys + mid.links.Keys + LinkSet(repoDir, commit, files), repoDir, commit, f.path)
  {
    if Blocked(mid.disk.Keys + mid.links.Keys + LinkSet(repoDir, commit, files), repoDir, commit, f.path) {
      BlockedByEntries(mid.disk, mid.links, repoDir, commit, LinkSet(repoDir, commit, files), f.path);
    }
  }

  /** Once all are linked, the snapshot can be read and shows something. */
  lemma LinkedIsReadable(mid: State, s': State, repoDir: string, commit: string, fs: seq<FileManifest>,
      files: seq<FileManifest>)
    requires SnapshotEntries(mid.disk, mid.links, repoDir, commit) <= LinkSet(repoDir, commit, fs)
    requires HashedTo(fs, files, |fs|) && SafeSegment(repoDir) && AllPlaced(s'.disk, repoDir, files)
    requires s'.links == LinksAfter(mid.links, repoDir, commit, files)
    requires s'.disk == mid.disk - LinkSet(repoDir, commit, files)
    requires exists f :: f in fs && !Bookkeeping(f.path)
    ensures Readable(s', repoDir, commit) && Visible(s'.disk, s'.links, repoDir, commit) != {}
  {
    SamePlaces(repoDir, commit, fs, files);
    LinksAfterKeys(mid.links, repoDir, commit, files);
    AllLinked(mid.links, s'.disk, repoDir, commit, fs, files);
    forall p | p in Visible(s'.disk, s'.links, repoDir, commit) ensures Source(s'.disk, s'.links, p).Some? {
      assert p in LinkSet(repoDir, commit, fs);
      var f :| f in fs && LinkPath(repoDir, commit, f) == p;
    }
    var f :| f in fs && !Bookkeeping(f.path);
    var j :| 0 <= j < |fs| && fs[j] == f;
    assert files[j] in files && LinkPath(repoDir, commit, files[j]) in s'.links.Keys;
    assert LinkPath(repoDir, commit, f) in Visible(s'.disk, s'.links, repoDir, commit);
  }

  /** Downloads and links a revision as the Hub lists it; nothing is listed when the Hub cannot
      be asked. mid is the state between the two, after so many files were fetched; linked the
      manifest with its hashes, of which so many files were placed. */
  method Materialise(n: Node, repoDir: string, commit: string, ref: string, siblings: Option<seq<Sibling>>,
      xet: map<string, string>, hub: Hub)
    returns (ok: bool, ghost mid: State, ghost linked: seq<FileManifest>, ghost done: Done)
    requires SafeSegment(repoDir)
    modifies n`disk, n`links, n`heads, n`trees
    ensures DownloadStep(old(n.View()), mid, repoDir, Listed(siblings, xet), hub, done.fetched)
    ensures LinkStep(mid, n.View(), repoDir, commit, linked, done.placed)
    ensures HashedTo(Listed(siblings, xet), linked, |linked|)
    ensures ok ==> RefNames(n.heads, repoDir, ref, commit)
    ensures ok ==> n.trees == TreeJson.Written(old(n.trees), repoDir, commit, linked)
    ensures ok ==> siblings.Some? && siblings.value != [] && forall s | s in siblings.value :: Listable(s)
    ensures ok ==> forall f | f in Listed(siblings, xet) :: Source(n.disk, n.links, LinkPath(repoDir, commit, f)).Some?
    ensures ok && NamesAgree(repoDir, Listed(siblings, xet), hub.suffix)
      ==> Filled(n.disk, repoDir, Listed(siblings, xet))
    ensures HubObtains(old(n.View()), repoDir, commit, siblings, xet, hub)
      ==> ok && Readable(n.View(), repoDir, commit) && Visible(n.disk, n.links, repoDir, commit) != {}
  {
    mid, linked, done := n.View(), Listed(siblings, xet), Done(0, 0);
    assert linked[..0] == [];
    if siblings.None? || siblings.value == [] { return false, mid, linked, done; }
    var r := ManifestFromRevision(siblings.value, xet);
    if r.None? { return false, mid, linked, done; }
    assert r.value.0 == linked;
    forall f | f in linked ensures SafeRelPath(f.path) && SafeBlobName(f.blobName) {
      var j :| 0 <= j < |linked| && linked[j] == f;
      assert siblings.value[j] in siblings.value;
    }
    ok, mid, linked, done := FetchAndLink(n, repoDir, commit, ref, r.value.0, hub);
  }

  /** How many files were fetched, and how many linked. */
  datatype Done = Done(fetched: nat, placed: nat)

  method FetchAndLink(n: Node, repoDir: string, commit: string, ref: string, fs: seq<FileManifest>, hub: Hub)
    returns (ok: bool, ghost mid: State, ghost linked: seq<FileManifest>, ghost done: Done)
    requires SafeSegment(repoDir)
    modifies n`disk, n`links, n`heads, n`trees
    ensures DownloadStep(old(n.View()), mid, repoDir, fs, hub, done.fetched)
    ensures LinkStep(mid, n.View(), repoDir, commit, linked, done.placed)
    ensures HashedTo(fs, linked, |linked|)
    ensures ok ==> RefNames(n.heads, repoDir, ref, commit)
    ensures ok ==> n.trees == TreeJson.Written(old(n.trees), repoDir, commit, linked)
    ensures ok ==> forall f | f in fs :: Source(n.disk, n.links, LinkPath(repoDir, commit, f)).Some?
    ensures ok && NamesAgree(repoDir, fs, hub.suffix) ==> Filled(n.disk, repoDir, fs)
    ensures NamesAgree(repoDir, fs, hub.suffix) && (forall i | 0 <= i < |fs| :: Arrives(hub, i, fs[i]))
      && InPlace(old(n.View()), repoDir, commit, fs) && SafeNames(fs)
      ==> ok && Readable(n.View(), repoDir, commit) && Visible(n.disk, n.links, repoDir, commit) != {}
  {
    var files := new FileManifest[|fs|](i requires 0 <= i < |fs| => fs[i]);
    assert files[..] == fs;
    var state := new Reconstruct.Transfer();
    ghost var s, fetched, placed := n.View(), 0, 0;
    ok, fetched := FetchAll(n, repoDir, files, hub, state);
    mid, linked, done := n.View(), files[..], Done(fetched, 0);
    assert linked[..0] == [];
    if !ok { return; }
    ghost var good := NamesAgree(repoDir, fs, hub.suffix) && InPlace(s, repoDir, commit, fs) && SafeNames(fs);
    if good { FetchedIsPlaceable(s, mid, repoDir, commit, fs, hub, linked); }
    ok, placed := WriteSnapshot(n, repoDir, commit, files[..], ref);
    if good { LinkedIsReadable(mid, n.View(), repoDir, commit, fs, linked); }
    done := Done(fetched, placed);
    LinkedStaysFilled(s, mid, n.View(), repoDir, commit, fs, hub, linked, placed);
    if ok { AllLinked(mid.links, n.disk, repoDir, commit, fs, files[..]); }
  }

  lemma AllLinked(links: map<Path, seq<string>>, disk: Disk, repoDir: string, commit: string, fs: seq<FileManifest>,
      files: seq<FileManifest>)
    requires HashedTo(fs, files, |fs|) && AllPlaced(disk, repoDir, files) && SafeSegment(repoDir)
    ensures forall f | f in fs ::
      Source(disk, LinksAfter(links, repoDir, commit, files), LinkPath(repoDir, commit, f)).Some?
  {
    forall f | f in fs
      ensures Source(disk, LinksAfter(links, repoDir, commit, files), LinkPath(repoDir, commit, f)).Some?
    {
      FileLinked(links, disk, repoDir, commit, fs, files, f);
    }
  }

  lemma FileLinked(links: map<Path, seq<string>>, disk: Disk, repoDir: string, commit: string, fs: seq<FileManifest>,
      files: seq<FileManifest>, f: FileManifest)
    requires HashedTo(fs, files, |fs|) && f in fs && AllPlaced(disk, repoDir, files) && SafeSegment(repoDir)
    ensures Source(disk, LinksAfter(links, repoDir, commit, files), LinkPath(repoDir, commit, f)).Some?
  {
    var j :| 0 <= j < |fs| && fs[j] == f;
    WrittenLeadToBlobs(links, disk, repoDir, commit, files, files[j]);
  }

  lemma DirIsSegment(repoId: string, t: RepoType)
    ensures SafeSegment(RepoDirName(repoId, t))
  {
  }

  /** Pulls a revision from the Hub and shares it: downloads up to mid1, links up to mid2, then
      ingests. Mapped revisions stay whole throughout. */
  method PullFromHub(n: Node, repoId: string, t: RepoType, commit: string, ref: string,
      siblings: Option<seq<Sibling>>, xet: map<string, string>, hub: Hub, im: Importer)
    returns (ok: bool, ghost mid1: State, ghost mid2: State, ghost linked: seq<FileManifest>, ghost done: Done)
    requires Honest(n.View()) && Usable(im)
    modifies n
    ensures DownloadStep(old(n.View()), mid1, RepoDirName(repoId, t), Listed(siblings, xet), hub, done.fetched)
    ensures LinkStep(mid1, mid2, RepoDirName(repoId, t), commit, linked, done.placed)
    ensures HashedTo(Listed(siblings, xet), linked, |linked|)
    ensures Ingest.IngestStep(mid2, n.View(), commit, ok) && Honest(n.View())
    ensures Coherent(old(n.View())) && Closed(old(n.View())) ==> Closed(n.View())
    ensures RefsLive(old(n.View())) && Unclaimed(old(n.View()), RepoDirName(repoId, t), commit, Listed(siblings, xet),
        hub.suffix)
      ==> RefsLive(n.View())
    ensures ok ==> ValidCommit(commit) && IsShared(n.View(), repoId, t, commit)
    ensures ok ==> RefNames(n.heads, RepoDirName(repoId, t), ref, commit)
    ensures ok ==> n.trees == TreeJson.Written(old(n.trees), RepoDirName(repoId, t), commit, linked)
    ensures ok ==> siblings.Some? && forall f | f in Listed(siblings, xet) ::
      Source(n.disk, n.links, LinkPath(RepoDirName(repoId, t), commit, f)).Some?
    ensures ok && NamesAgree(RepoDirName(repoId, t), Listed(siblings, xet), hub.suffix)
      ==> Filled(n.disk, RepoDirName(repoId, t), Listed(siblings, xet))
    ensures HubObtains(old(n.View()), RepoDirName(repoId, t), commit, siblings, xet, hub) && ValidCommit(commit) ==> ok
  {
    ghost var s, dir := n.View(), RepoDirName(repoId, t);
    DirIsSegment(repoId, t);
    ok, mid1, linked, done := Materialise(n, RepoDirName(repoId, t), commit, ref, siblings, xet, hub);
    mid2 := n.View();
    if ok {
      ok := IngestRevision(n, repoId, t, commit, im);
    } else {
      Ingest.IngestKeepsPromises(mid2, mid2, commit, false);
    }
    FilesOnlyKeepClosed(s, mid2);
    if RefsLive(s) && Unclaimed(s, dir, commit, Listed(siblings, xet), hub.suffix) {
      DownloadsKeepRefsLive(s, mid1, dir, Listed(siblings, xet), hub.suffix);
      LinkStepReplaces(mid1, mid2, dir, commit, linked, done.placed);
      LinkingKeepsRefsLive(s, mid1, mid2, dir, commit, Listed(siblings, xet), hub.suffix, linked);
    }
  }

  /** Closedness does not look at files. */
  lemma FilesOnlyKeepClosed(s: State, s': State)
    requires s'.blocks == s.blocks && s'.refs == s.refs && s'.mapping == s.mapping
    ensures (Honest(s') <==> Honest(s)) && (Coherent(s') <==> Coherent(s)) && (Closed(s') <==> Closed(s))
  {
    assert forall c :: Has(s, c) <==> Has(s', c);
  }
}
