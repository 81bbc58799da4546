/** The symlink tree of a revision: written as relative links into blobs/, read back as a
    manifest. */
module Snapshot {
  import opened Content
  import opened Dummy
  import opened Names
  import opened Order
  import opened Store
  import opened DirTree
  import opened Paths
  import opened Sorting
  import TreeJson

  // ---- Relative targets ----

  predicate PlainSegments(p: Rel) {
    forall i | 0 <= i < |p| :: SafeSegment(p[i])
  }

  /** Where a path lies below the hub directory. */
  function Segments(p: Path): Rel {
    match p
    case BlobPath(dir, name) => [dir, "blobs", name]
    case SnapPath(dir, commit, rel) => [dir, "snapshots", commit] + Split(rel)
    case HostPath(text) => [text]
  }

  function CommonPrefix(a: Rel, b: Rel): nat {
    if a == [] || b == [] || a[0] != b[0] then 0 else 1 + CommonPrefix(a[1..], b[1..])
  }

  lemma {:induction false} CommonPrefixIs(a: Rel, b: Rel)
    ensures CommonPrefix(a, b) <= |a| && CommonPrefix(a, b) <= |b|
    ensures a[..CommonPrefix(a, b)] == b[..CommonPrefix(a, b)]
    decreases |a|
  {
    if a != [] && b != [] && a[0] == b[0] {
      CommonPrefixIs(a[1..], b[1..]);
      var k := CommonPrefix(a[1..], b[1..]);
      assert a[..k + 1] == [a[0]] + a[1..][..k] && b[..k + 1] == [b[0]] + b[1..][..k];
    }
  }

  /** The path that leads from the directory from to the file at to: up to where they part,
      then down. */
  function RelativeTo(from: Rel, to: Rel): Rel {
    CommonPrefixIs(from, to);
    var k := CommonPrefix(from, to);
    seq(|from| - k, i => "..") + to[k..]
  }

  /** Follows a relative path from a directory: ".." goes up, "." and "" stay. */
  function Resolve(at: Rel, path: Rel): Rel
    decreases |path|
  {
    if path == [] then at
    else if path[0] == ".." then Resolve(if at == [] then [] else at[..|at| - 1], path[1..])
    else if path[0] == "." || path[0] == "" then Resolve(at, path[1..])
    else Resolve(at + [path[0]], path[1..])
  }

  lemma {:induction false} ResolveUps(at: Rel, n: nat, rest: Rel)
    requires n <= |at|
    ensures Resolve(at, seq(n, i => "..") + rest) == Resolve(at[..|at| - n], rest)
    decreases n
  {
    var path := seq(n, i => "..") + rest;
    if n == 0 {
      assert path == rest && at[..|at|] == at;
    } else {
      assert path[1..] == seq(n - 1, i => "..") + rest;
      var up := at[..|at| - 1];
      ResolveUps(up, n - 1, rest);
      assert up[..|up| - (n - 1)] == at[..|at| - n];
    }
  }

  lemma {:induction false} ResolveDown(at: Rel, rest: Rel)
    requires PlainSegments(rest)
    ensures Resolve(at, rest) == at + rest
    decreases |rest|
  {
    if rest == [] {
      assert at + rest == at;
    } else {
      assert PlainSegments(rest[1..]);
      ResolveDown(at + [rest[0]], rest[1..]);
      assert at + [rest[0]] + rest[1..] == at + rest;
    }
  }

  /** A path is followed segment by segment: ".." goes up and stays at the top, "." and "" stay,
      any other goes down. */
  lemma {:induction false} ResolveSteps(at: Rel, path: Rel, x: string)
    ensures var mid := Resolve(at, path);
      Resolve(at, path + [x]) ==
      if x == "" || x == "." then mid else if x != ".." then mid + [x] else if mid == [] then [] else mid[..|mid| - 1]
    decreases |path|
  {
    if path == [] {
      assert path + [x] == [x] && [x][1..] == [];
    } else {
      assert (path + [x])[0] == path[0] && (path + [x])[1..] == path[1..] + [x];
      if path[0] == ".." {
        ResolveSteps(if at == [] then [] else at[..|at| - 1], path[1..], x);
      } else if path[0] == "." || path[0] == "" {
        ResolveSteps(at, path[1..], x);
      } else {
        ResolveSteps(at + [path[0]], path[1..], x);
      }
    }
  }

  /** A safe path leads down from wherever it starts, with every segment, and so does a safe blob
      name, which is a safe path of one segment. */
  lemma SafeLeadsDown(at: Rel, p: string, i: nat)
    requires i <= |Split(p)|
    ensures SafeRelPath(p) ==> Resolve(at, Split(p)[..i]) == at + Split(p)[..i]
    ensures SafeBlobName(p) <==> SafeRelPath(p) && '/' !in p
  {
    if SafeRelPath(p) { ResolveDown(at, Split(p)[..i]); }
    SafeBySegments(p);
    if '/' !in p {
      SplitOne(p);
      assert p in Split(p);
    }
  }

  /** Following the relative path leads to the target. */
  lemma RelativeResolves(from: Rel, to: Rel)
    requires PlainSegments(to)
    ensures Resolve(from, RelativeTo(from, to)) == to
  {
    CommonPrefixIs(from, to);
    var k := CommonPrefix(from, to);
    ResolveUps(from, |from| - k, to[k..]);
    ResolveDown(from[..k], to[k..]);
    assert to[..k] + to[k..] == to;
  }

  /** On the way it never leaves the directory both have in common. */
  lemma RelativeStaysBelow(from: Rel, to: Rel, top: string, i: nat)
    requires PlainSegments(to) && from != [] && to != [] && from[0] == to[0] == top
    requires i <= |RelativeTo(from, to)|
    ensures var at := Resolve(from, RelativeTo(from, to)[..i]); at != [] && at[0] == top
  {
    CommonPrefixIs(from, to);
    var k := CommonPrefix(from, to);
    var n := |from| - k;
    var path := RelativeTo(from, to);
    if i <= n {
      assert path[..i] == seq(i, j => "..") + [];
      ResolveUps(from, i, []);
    } else {
      var down := to[k..][..i - n];
      assert path[..i] == seq(n, j => "..") + down;
      ResolveUps(from, n, down);
      ResolveDown(from[..k], down);
    }
  }

  // ---- Writing ----

  function LinkPath(repoDir: string, commit: string, f: FileManifest): Path {
    SnapPath(repoDir, commit, f.path)
  }

  /** The target written into a file's link. */
  function LinkTarget(repoDir: string, commit: string, f: FileManifest): Rel {
    var link := Segments(LinkPath(repoDir, commit, f));
    RelativeTo(link[..|link| - 1], Segments(BlobPath(repoDir, f.blobName)))
  }

  predicate StaysIn(repoDir: string, at: Rel) {
    at != [] && at[0] == repoDir
  }

  /** At any depth the link reads ../ once per directory above it up to the repository, then
      blobs/<name>; it resolves to the blob and stays inside the repository on the way. */
  lemma LinkLeadsToBlob(repoDir: string, commit: string, f: FileManifest)
    requires SafeSegment(repoDir) && SafeBlobName(f.blobName)
    ensures LinkTarget(repoDir, commit, f) == seq(|Split(f.path)| + 1, i => "..") + ["blobs", f.blobName]
    ensures Segments(LinkPath(repoDir, commit, f)) == [repoDir, "snapshots", commit] + Split(f.path)
    ensures LeadsTo(LinkPath(repoDir, commit, f), LinkTarget(repoDir, commit, f)) ==
      Segments(BlobPath(repoDir, f.blobName))
    ensures forall i | 0 <= i <= |LinkTarget(repoDir, commit, f)| ::
      StaysIn(repoDir, LeadsTo(LinkPath(repoDir, commit, f), LinkTarget(repoDir, commit, f)[..i]))
  {
    var link, blob := Segments(LinkPath(repoDir, commit, f)), Segments(BlobPath(repoDir, f.blobName));
    var from := link[..|link| - 1];
    assert PlainSegments(blob);
    RelativeResolves(from, blob);
    assert from[1..][0] != blob[1..][0] by {
      assert from[1] == "snapshots" && blob[1] == "blobs";
      assert "snapshots"[0] != "blobs"[0];
    }
    assert CommonPrefix(from, blob) == 1;
    assert blob[1..] == ["blobs", f.blobName];
    forall i | 0 <= i <= |LinkTarget(repoDir, commit, f)|
      ensures StaysIn(repoDir, LeadsTo(LinkPath(repoDir, commit, f), LinkTarget(repoDir, commit, f)[..i]))
    {
      RelativeStaysBelow(from, blob, repoDir, i);
    }
  }

  /** Where a link's relative target leads. */
  function LeadsTo(link: Path, target: Rel): Rel {
    var at := Segments(link);
    assert |at| > 0;
    Resolve(at[..|at| - 1], target)
  }

  /** One path would have to be a directory of the other. */
  predicate Clash(a: Rel, b: Rel) {
    a < b || b < a
  }

  /** That is, one of them continues the other with a slash. */
  lemma ClashIff(a: string, b: string)
    ensures Clash(Split(a), Split(b)) <==> a + "/" <= b || b + "/" <= a
  {
    BelowIff(a, b);
    BelowIff(b, a);
  }

  /** An entry of the snapshot stands in the way of a link at path: as a file where a
      directory is needed, or as something inside a directory where the link should be. */
  predicate Blocked(entries: set<Path>, repoDir: string, commit: string, path: string) {
    exists p :: p in entries && Under(repoDir, commit, p) && Clash(Split(p.rel), Split(path))
  }

  function LinksAfter(links: map<Path, Rel>, repoDir: string, commit: string, files: seq<FileManifest>): map<Path, Rel>
    decreases |files|
  {
    if files == [] then links
    else
      var f := files[|files| - 1];
      var before := LinksAfter(links, repoDir, commit, files[..|files| - 1]);
      before[LinkPath(repoDir, commit, f) := LinkTarget(repoDir, commit, f)]
  }

  function LinkSet(repoDir: string, commit: string, files: seq<FileManifest>): set<Path> {
    set f | f in files :: LinkPath(repoDir, commit, f)
  }

  function RefName(ref: string): string {
    if ref == "" then MAIN else ref
  }

  /** The ref, or main when none is named, is at the commit. */
  ghost predicate RefNames(heads: map<(string, string), string>, repoDir: string, ref: string, commit: string) {
    var name := if ref == "" then "main" else ref;
    (repoDir, name) in heads && heads[(repoDir, name)] == commit
  }

  /** Recreates the symlink tree of a revision and points the ref at it. Every blob must be
      in place. */
  method WriteSnapshot(n: Node, repoDir: string, commit: string, files: seq<FileManifest>, ref: string)
    returns (ok: bool, ghost placed: nat)
    modifies n`links, n`disk, n`heads, n`trees
    ensures ok ==> n.links == LinksAfter(old(n.links), repoDir, commit, files)
    ensures ok ==> n.disk == old(n.disk) - LinkSet(repoDir, commit, files)
    ensures ok ==> AllPlaced(n.disk, repoDir, files)
    ensures ok ==> n.trees == TreeJson.Written(old(n.trees), repoDir, commit, files)
    ensures n.heads == if ok then old(n.heads)[(repoDir, RefName(ref)) := commit] else old(n.heads)
    ensures !ok ==> n.trees == old(n.trees)
    ensures ok ==> RefNames(n.heads, repoDir, ref, commit)
    ensures ok && ref == "" && ValidCommit(commit) ==> IsHead(n.View(), repoDir, commit)
    ensures LinkStep(old(n.View()), n.View(), repoDir, commit, files, placed) && (ok ==> placed == |files|)
    ensures Placeable(old(n.View()), repoDir, commit, files) ==> ok
  {
    ok, placed := WriteLinks(n, repoDir, commit, files);
    if ok {
      TreeJson.WriteTree(n, repoDir, commit, files);
      n.heads := n.heads[(repoDir, RefName(ref)) := commit];
    }
  }

  /** Places the links one after the other, up to the first that cannot be placed. */
  method WriteLinks(n: Node, repoDir: string, commit: string, files: seq<FileManifest>)
    returns (ok: bool, ghost placed: nat)
    modifies n`links, n`disk
    ensures placed <= |files| && (ok ==> placed == |files|)
    ensures ok ==> Wrote(old(n.View()), n.disk, n.links, repoDir, commit, files)
    ensures Wrote(old(n.View()), n.disk, n.links, repoDir, commit, files[..placed])
    ensures Placeable(old(n.View()), repoDir, commit, files) ==> ok
  {
    ghost var s := n.View();
    placed := 0;
    for i := 0 to |files|
      invariant placed == i
      invariant Wrote(s, n.disk, n.links, repoDir, commit, files[..i])
    {
      CanPlaceNext(s, n.disk, n.links, repoDir, commit, files, i);
      ghost var disk, links := n.disk, n.links;
      ok := WriteLink(n, repoDir, commit, files[i]);
      if !ok { return; }
      PlacedNext(s, disk, links, repoDir, commit, files, i);
      placed := i + 1;
    }
    assert files[..|files|] == files;
    ok := true;
  }

  /** Nothing but files in the place of links is gone, whether the writing got to its end or
      not. */
  ghost predicate OnlyReplaced(disk: Disk, disk': Disk, places: set<Path>) {
    (forall p | p in disk' :: p in disk && disk'[p] == disk[p]) && disk.Keys - places <= disk'.Keys
  }

  /** What linking a revision does, with or without success: the first of its links are placed,
      over whatever files were there. */
  ghost predicate LinkStep(s: State, s': State, repoDir: string, commit: string, files: seq<FileManifest>,
      placed: nat)
  {
    && placed <= |files| && s'.disk == s.disk - LinkSet(repoDir, commit, files[..placed])
    && s'.links == LinksAfter(s.links, repoDir, commit, files[..placed])
    && s' == s.(disk := s'.disk, links := s'.links, heads := s'.heads, trees := s'.trees)
  }

  lemma LinkStepReplaces(s: State, s': State, repoDir: string, commit: string, files: seq<FileManifest>, placed: nat)
    requires LinkStep(s, s', repoDir, commit, files, placed)
    ensures OnlyReplaced(s.disk, s'.disk, LinkSet(repoDir, commit, files))
  {
    LinkSetGrows(repoDir, commit, files, placed);
  }

  /** The entries of the snapshot afterwards: those from before, and places of links. */
  lemma LinkStepEnters(s: State, s': State, repoDir: string, commit: string, files: seq<FileManifest>, placed: nat)
    requires LinkStep(s, s', repoDir, commit, files, placed)
    ensures SnapshotEntries(s'.disk, s'.links, repoDir, commit) <=
      SnapshotEntries(s.disk, s.links, repoDir, commit) + LinkSet(repoDir, commit, files)
  {
    LinkSetGrows(repoDir, commit, files, placed);
    LinksAfterKeys(s.links, repoDir, commit, files[..placed]);
  }

  /** What stands in the way of a link is an entry of the snapshot. */
  lemma BlockedByEntries(disk: Disk, links: map<Path, Rel>, repoDir: string, commit: string, more: set<Path>,
      path: string)
    requires Blocked(disk.Keys + links.Keys + more, repoDir, commit, path)
    ensures Blocked(SnapshotEntries(disk, links, repoDir, commit) + more, repoDir, commit, path)
  {
    var p :| p in disk.Keys + links.Keys + more && Under(repoDir, commit, p) && Clash(Split(p.rel), Split(path));
    assert p in SnapshotEntries(disk, links, repoDir, commit) + more;
  }

  lemma LinkSetGrows(repoDir: string, commit: string, files: seq<FileManifest>, i: nat)
    requires i <= |files|
    ensures LinkSet(repoDir, commit, files[..i]) <= LinkSet(repoDir, commit, files)
  {
  }

  ghost predicate Wrote(s: State, disk: Disk, links: map<Path, Rel>, repoDir: string, commit: string,
      files: seq<FileManifest>)
  {
    && links == LinksAfter(s.links, repoDir, commit, files)
    && disk == s.disk - LinkSet(repoDir, commit, files)
    && AllPlaced(disk, repoDir, files)
  }

  lemma CanPlaceNext(s: State, disk: Disk, links: map<Path, Rel>, repoDir: string, commit: string,
      files: seq<FileManifest>, i: nat)
    requires i < |files| && Wrote(s, disk, links, repoDir, commit, files[..i])
    ensures Placeable(s, repoDir, commit, files) ==> CanPlace(disk, links, repoDir, commit, files[i])
  {
    LinksAfterKeys(s.links, repoDir, commit, files[..i]);
    assert LinkSet(repoDir, commit, files[..i]) <= LinkSet(repoDir, commit, files);
    assert files[i] in files;
  }

  lemma PlacedNext(s: State, disk: Disk, links: map<Path, Rel>, repoDir: string, commit: string,
      files: seq<FileManifest>, i: nat)
    requires i < |files| && Wrote(s, disk, links, repoDir, commit, files[..i])
    requires CanPlace(disk, links, repoDir, commit, files[i])
    ensures var link, target := LinkPath(repoDir, commit, files[i]), LinkTarget(repoDir, commit, files[i]);
      Wrote(s, disk - {link}, links[link := target], repoDir, commit, files[..i + 1])
  {
    LinksAfterOneMore(s.links, repoDir, commit, files, i);
    var gone := LinkSet(repoDir, commit, files[..i]);
    assert disk - {LinkPath(repoDir, commit, files[i])} == s.disk - (gone + {LinkPath(repoDir, commit, files[i])});
    PlacedStays(disk, repoDir, files, i, LinkPath(repoDir, commit, files[i]));
  }

  lemma PlacedStays(disk: Disk, repoDir: string, files: seq<FileManifest>, i: nat, link: Path)
    requires i < |files| && AllPlaced(disk, repoDir, files[..i]) && link.SnapPath?
    requires SafeRelPath(files[i].path) && SafeBlobName(files[i].blobName)
    requires BlobPath(repoDir, files[i].blobName) in disk
    ensures AllPlaced(disk - {link}, repoDir, files[..i + 1])
  {
  }

  predicate CanPlace(disk: Disk, links: map<Path, Rel>, repoDir: string, commit: string, f: FileManifest) {
    && SafeRelPath(f.path) && SafeBlobName(f.blobName) && BlobPath(repoDir, f.blobName) in disk
    && !Blocked(disk.Keys + links.Keys, repoDir, commit, f.path)
  }

  ghost predicate AllPlaced(disk: Disk, repoDir: string, files: seq<FileManifest>) {
    forall f | f in files :: SafeRelPath(f.path) && SafeBlobName(f.blobName) && BlobPath(repoDir, f.blobName) in disk
  }

  /** Places one link, over whatever link or file is there. */
  method WriteLink(n: Node, repoDir: string, commit: string, f: FileManifest) returns (ok: bool)
    modifies n`links, n`disk
    ensures ok <==> CanPlace(old(n.disk), old(n.links), repoDir, commit, f)
    ensures ok ==> n.links == old(n.links)[LinkPath(repoDir, commit, f) := LinkTarget(repoDir, commit, f)]
    ensures ok ==> n.disk == old(n.disk) - {LinkPath(repoDir, commit, f)}
    ensures !ok ==> n.links == old(n.links) && n.disk == old(n.disk)
  {
    if !SafeRelPath(f.path) || !SafeBlobName(f.blobName) { return false; }
    if Blocked(n.disk.Keys + n.links.Keys, repoDir, commit, f.path) { return false; }
    if BlobPath(repoDir, f.blobName) !in n.disk { return false; }
    var link, target := LinkPath(repoDir, commit, f), LinkTarget(repoDir, commit, f);
    if link in n.links && n.links[link] == target && link !in n.disk {
      assert n.links == n.links[link := target] && n.disk == n.disk - {link};
      return true;
    }
    n.disk := n.disk - {link};
    n.links := n.links[link := target];
    ok := true;
  }

  lemma LinksAfterOneMore(links: map<Path, Rel>, repoDir: string, commit: string, files: seq<FileManifest>, i: nat)
    requires i < |files|
    ensures files[..i + 1] == files[..i] + [files[i]]
    ensures LinksAfter(links, repoDir, commit, files[..i + 1]) ==
      (var before := LinksAfter(links, repoDir, commit, files[..i]);
       before[LinkPath(repoDir, commit, files[i]) := LinkTarget(repoDir, commit, files[i])])
    ensures LinkSet(repoDir, commit, files[..i + 1]) ==
      LinkSet(repoDir, commit, files[..i]) + {LinkPath(repoDir, commit, files[i])}
  {
    assert files[..i + 1] == files[..i] + [files[i]];
    assert files[..i + 1][..i] == files[..i];
  }

  /** All names are safe, all blobs in place, and no link clashes with another or with what
      is already there. */
  ghost predicate Placeable(s: State, repoDir: string, commit: string, files: seq<FileManifest>) {
    forall f | f in files ::
      && SafeRelPath(f.path) && SafeBlobName(f.blobName) && BlobPath(repoDir, f.blobName) in s.disk
      && !Blocked(s.disk.Keys + s.links.Keys + LinkSet(repoDir, commit, files), repoDir, commit, f.path)
  }

  lemma {:induction false} LinksAfterKeys(links: map<Path, Rel>, repoDir: string, commit: string,
      files: seq<FileManifest>)
    ensures LinksAfter(links, repoDir, commit, files).Keys == links.Keys + LinkSet(repoDir, commit, files)
    decreases |files|
  {
    if files != [] {
      var m := |files| - 1;
      LinksAfterKeys(links, repoDir, commit, files[..m]);
      assert files == files[..m] + [files[m]];
    }
  }

  lemma {:induction false} LinksAfterAt(links: map<Path, Rel>, repoDir: string, commit: string,
      files: seq<FileManifest>, p: Path)
    ensures var r := LinksAfter(links, repoDir, commit, files);
      if Under(repoDir, commit, p) && TreeJson.LastFile(files, p.rel).Some?
      then p in r && r[p] == LinkTarget(repoDir, commit, TreeJson.LastFile(files, p.rel).value)
      else (p in r <==> p in links) && (p in r ==> r[p] == links[p])
    decreases |files|
  {
    if files != [] { LinksAfterAt(links, repoDir, commit, files[..|files| - 1], p); }
  }

  /** Every file that was written leads to a blob. */
  lemma WrittenLeadToBlobs(links: map<Path, Rel>, disk: Disk, repoDir: string, commit: string,
      files: seq<FileManifest>, f: FileManifest)
    requires AllPlaced(disk, repoDir, files) && SafeSegment(repoDir) && f in files
    ensures Source(disk, LinksAfter(links, repoDir, commit, files), LinkPath(repoDir, commit, f)).Some?
  {
    LinksAfterAt(links, repoDir, commit, files, LinkPath(repoDir, commit, f));
    LastFileOf(files, f);
    LinkLeadsToBlob(repoDir, commit, TreeJson.LastFile(files, f.path).value);
  }

  lemma {:induction false} LastFileOf(files: seq<FileManifest>, f: FileManifest)
    requires f in files
    ensures var last := TreeJson.LastFile(files, f.path); last.Some? && last.value in files && last.value.path == f.path
    decreases |files|
  {
    var m := |files| - 1;
    if files[m].path != f.path {
      assert f in files[..m];
      LastFileOf(files[..m], f);
    }
  }

  /** A second write changes no link. */
  lemma RewriteChangesNothing(links: map<Path, Rel>, repoDir: string, commit: string, files: seq<FileManifest>)
    ensures LinksAfter(LinksAfter(links, repoDir, commit, files), repoDir, commit, files) ==
      LinksAfter(links, repoDir, commit, files)
  {
    var once := LinksAfter(links, repoDir, commit, files);
    forall p ensures
      (p in LinksAfter(once, repoDir, commit, files) <==> p in once) &&
      (p in once ==> LinksAfter(once, repoDir, commit, files)[p] == once[p])
    {
      LinksAfterAt(links, repoDir, commit, files, p);
      LinksAfterAt(once, repoDir, commit, files, p);
    }
  }

  // ---- Reading ----

  /** The blob a link leads to, when it leads into a blobs directory. */
  function LinkedBlob(link: Path, target: Rel): Option<Path> {
    var at := LeadsTo(link, target);
    if |at| == 3 && at[1] == "blobs" then Some(BlobPath(at[0], at[2])) else None
  }

  /** The file behind a snapshot entry: itself, or the blob its link leads to. */
  function Source(disk: Disk, links: map<Path, Rel>, p: Path): Option<Path> {
    if p in links then
      var blob := LinkedBlob(p, links[p]);
      if blob.Some? && blob.value in disk then blob else None
    else if p in disk then Some(p)
    else None
  }

  function SnapshotEntries(disk: Disk, links: map<Path, Rel>, repoDir: string, commit: string): set<Path> {
    set p | p in disk.Keys + links.Keys && Under(repoDir, commit, p)
  }

  /** Bookkeeping is not content: anything below a .git or .cache directory at any depth, and
      an entry of one of these names at the top. */
  predicate Bookkeeping(rel: string) {
    var parts := Split(rel);
    parts[0] == ".git" || parts[0] == ".cache" ||
    exists i :: 0 <= i < |parts| - 1 && (parts[i] == ".git" || parts[i] == ".cache")
  }

  /** By segments: .git or .cache among the directories, or one of them as the name of an entry at
      the top. A name that only starts with these letters is content. */
  lemma BookkeepingIff(dirs: Rel, name: string)
    requires '/' !in name && forall x | x in dirs :: '/' !in x
    ensures Bookkeeping(Join(dirs + [name])) <==>
      ".git" in dirs || ".cache" in dirs || (dirs == [] && (name == ".git" || name == ".cache"))
  {
    var parts := dirs + [name];
    SplitJoin(parts);
    assert forall i | 0 <= i < |parts| - 1 :: parts[i] == dirs[i];
    assert parts[0] == if dirs == [] then name else dirs[0];
  }

  /** The download is finalized: there are entries, and each leads to a file. */
  predicate SnapshotComplete(disk: Disk, links: map<Path, Rel>, repoDir: string, commit: string) {
    var entries := SnapshotEntries(disk, links, repoDir, commit);
    entries != {} && forall p | p in entries :: Source(disk, links, p).Some?
  }

  /** A finalized snapshot shows something, and every link in it leads to a blob that is there. */
  lemma CompleteIff(disk: Disk, links: map<Path, Rel>, repoDir: string, commit: string)
    ensures SnapshotComplete(disk, links, repoDir, commit) <==>
      && (exists rel :: SnapPath(repoDir, commit, rel) in disk || SnapPath(repoDir, commit, rel) in links)
      && forall rel | SnapPath(repoDir, commit, rel) in links ::
        LinkIsGood(disk, SnapPath(repoDir, commit, rel), links[SnapPath(repoDir, commit, rel)])
  {
    var entries := SnapshotEntries(disk, links, repoDir, commit);
    forall rel | SnapPath(repoDir, commit, rel) in links
      ensures Source(disk, links, SnapPath(repoDir, commit, rel)).Some? <==>
        LinkIsGood(disk, SnapPath(repoDir, commit, rel), links[SnapPath(repoDir, commit, rel)])
    {
      LinkIsGoodIff(disk, SnapPath(repoDir, commit, rel), links[SnapPath(repoDir, commit, rel)]);
      assert SnapPath(repoDir, commit, rel) in entries;
    }
    forall rel | SnapPath(repoDir, commit, rel) in disk ensures SnapPath(repoDir, commit, rel) in entries {}
    forall p | p in entries ensures p == SnapPath(repoDir, commit, p.rel) {}
  }

  /** The link leads into the blobs of some repository, to one that is there. */
  ghost predicate LinkIsGood(disk: Disk, link: Path, target: Rel) {
    exists dir, name :: LeadsTo(link, target) == [dir, "blobs", name] && BlobPath(dir, name) in disk
  }

  lemma LinkIsGoodIff(disk: Disk, link: Path, target: Rel)
    ensures LinkIsGood(disk, link, target) <==> LinkedBlob(link, target).Some? && LinkedBlob(link, target).value in disk
  {
    var at := LeadsTo(link, target);
    if LinkedBlob(link, target).Some? && LinkedBlob(link, target).value in disk {
      assert at == [at[0], "blobs", at[2]];
    }
  }

  /** The manifest entry of one file. A blob of this repository keeps its name; any other file
      is named by its content. */
  function ReadEntry(disk: Disk, repoDir: string, rel: string, src: Path): FileManifest
    requires src in disk
  {
    var data := disk[src];
    var name := if src.BlobPath? && src.repoDir == repoDir then src.name else EncodeHex(data);
    FileManifest(rel, name, |data|, Sha256(data), false, "", Some(src))
  }

  /** Dereferences the snapshot directory into a manifest, sorted by path. */
  method ReadSnapshot(n: Node, repoDir: string, commit: string) returns (files: Option<seq<FileManifest>>)
    ensures files.Some?
      <==> forall p | p in Visible(n.disk, n.links, repoDir, commit) :: Source(n.disk, n.links, p).Some?
    ensures files.Some? ==> IsReading(n.disk, n.links, repoDir, commit, files.value)
    ensures files.Some? ==> forall rel :: (exists f :: f in files.value && f.path == rel) <==>
      (SnapPath(repoDir, commit, rel) in n.disk || SnapPath(repoDir, commit, rel) in n.links) && !Bookkeeping(rel)
    ensures files.Some? ==> forall f | f in files.value :: ShowsItsFile(n.View(), repoDir, commit, f)
  {
    var todo := Visible(n.disk, n.links, repoDir, commit);
    ghost var all := todo;
    var found: seq<FileManifest> := [];
    while todo != {}
      invariant todo <= all
      invariant forall p | p in all - todo :: Source(n.disk, n.links, p).Some?
      invariant Reads(n.disk, n.links, repoDir, commit, all - todo, found)
    {
      var p :| p in todo;
      var src := Source(n.disk, n.links, p);
      if src.None? { return None; }
      ReadsOneMore(n.disk, n.links, repoDir, commit, all - todo, found, p);
      found := found + [ReadEntry(n.disk, repoDir, p.rel, src.value)];
      todo := todo - {p};
      assert all - todo == (all - (todo + {p})) + {p};
    }
    assert all - todo == all;
    var sorted := new FileManifest[|found|](i requires 0 <= i < |found| => found[i]);
    assert sorted[..] == found;
    SortManifests(sorted);
    files := Some(sorted[..]);
    SortedReading(n.disk, n.links, repoDir, commit, all, found, sorted[..]);
    ReadingShows(n.View(), repoDir, commit, files.value);
  }

  /** The entry has the length and the hash of the file it was read from: the one in its place, or
      the blob that a link there leads to, whose name it has if that is a blob of the repository. */
  ghost predicate ShowsItsFile(s: State, repoDir: string, commit: string, f: FileManifest) {
    var at := SnapPath(repoDir, commit, f.path);
    && f.src.Some? && f.src.value in s.disk
    && f.size == |s.disk[f.src.value]| && f.sha256 == Sha256(s.disk[f.src.value])
    && (if at !in s.links then f.src.value == at
        else f.src.value.BlobPath? && LeadsTo(at, s.links[at]) == [f.src.value.repoDir, "blobs", f.src.value.name])
    && f.blobName == if at in s.links && f.src.value.repoDir == repoDir then f.src.value.name
                     else EncodeHex(s.disk[f.src.value])
  }

  lemma ReadingShows(s: State, repoDir: string, commit: string, fs: seq<FileManifest>)
    requires IsReading(s.disk, s.links, repoDir, commit, fs)
    ensures forall rel :: (exists f :: f in fs && f.path == rel) <==>
      (SnapPath(repoDir, commit, rel) in s.disk || SnapPath(repoDir, commit, rel) in s.links) && !Bookkeeping(rel)
    ensures forall f | f in fs :: ShowsItsFile(s, repoDir, commit, f)
  {
    var ps := Visible(s.disk, s.links, repoDir, commit);
    forall rel ensures (exists f :: f in fs && f.path == rel) <==> SnapPath(repoDir, commit, rel) in ps {
      if SnapPath(repoDir, commit, rel) in ps {
        var f :| f in fs && LinkPath(repoDir, commit, f) == SnapPath(repoDir, commit, rel);
        assert f.path == rel;
      }
      if f :| f in fs && f.path == rel { assert LinkPath(repoDir, commit, f) in ps; }
    }
    forall f | f in fs ensures ShowsItsFile(s, repoDir, commit, f) {
      var at := SnapPath(repoDir, commit, f.path);
      assert EntryOf(s.disk, s.links, repoDir, commit, f);
      if at in s.links {
        var to := LeadsTo(at, s.links[at]);
        assert to == [to[0], "blobs", to[2]];
      }
    }
  }

  /** The entries the walk does not skip. */
  function Visible(disk: Disk, links: map<Path, Rel>, repoDir: string, commit: string): set<Path> {
    set p | p in SnapshotEntries(disk, links, repoDir, commit) && !Bookkeeping(p.rel)
  }

  /** fs holds the manifest entry of each of the given files once, in any order. */
  ghost predicate Reads(disk: Disk, links: map<Path, Rel>, repoDir: string, commit: string, ps: set<Path>,
      fs: seq<FileManifest>)
  {
    && (forall f | f in fs :: EntryOf(disk, links, repoDir, commit, f) && LinkPath(repoDir, commit, f) in ps)
    && (forall p | p in ps :: exists f :: f in fs && LinkPath(repoDir, commit, f) == p)
    && (forall i, j | 0 <= i < j < |fs| :: fs[i].path != fs[j].path)
  }

  ghost predicate EntryOf(disk: Disk, links: map<Path, Rel>, repoDir: string, commit: string, f: FileManifest) {
    var src := Source(disk, links, LinkPath(repoDir, commit, f));
    src.Some? && f == ReadEntry(disk, repoDir, f.path, src.value)
  }

  ghost predicate IsReading(disk: Disk, links: map<Path, Rel>, repoDir: string, commit: string, fs: seq<FileManifest>) {
    Reads(disk, links, repoDir, commit, Visible(disk, links, repoDir, commit), fs) && Ordered(fs)
  }

  lemma ReadsOneMore(disk: Disk, links: map<Path, Rel>, repoDir: string, commit: string, ps: set<Path>,
      fs: seq<FileManifest>, p: Path)
    requires Reads(disk, links, repoDir, commit, ps, fs) && Under(repoDir, commit, p) && p !in ps
    requires Source(disk, links, p).Some?
    ensures Reads(disk, links, repoDir, commit, ps + {p},
        fs + [ReadEntry(disk, repoDir, p.rel, Source(disk, links, p).value)])
  {
    var f := ReadEntry(disk, repoDir, p.rel, Source(disk, links, p).value);
    assert LinkPath(repoDir, commit, f) == p;
    var more := fs + [f];
    assert more[|fs|] == f;
    forall q | q in ps + {p} ensures exists g :: g in more && LinkPath(repoDir, commit, g) == q {
      if q in ps {
        var g :| g in fs && LinkPath(repoDir, commit, g) == q;
        assert g in more;
      } else {
        assert f in more;
      }
    }
    forall i | 0 <= i < |fs| ensures fs[i].path != f.path { assert fs[i] in fs; }
  }

  lemma SortedReading(disk: Disk, links: map<Path, Rel>, repoDir: string, commit: string, ps: set<Path>,
      fs: seq<FileManifest>, gs: seq<FileManifest>)
    requires Reads(disk, links, repoDir, commit, ps, fs) && multiset(gs) == multiset(fs)
    ensures Reads(disk, links, repoDir, commit, ps, gs)
  {
    forall g ensures g in gs <==> g in fs {
      assert g in gs <==> multiset(gs)[g] > 0;
      assert g in fs <==> multiset(fs)[g] > 0;
    }
    forall i, j | 0 <= i < j < |gs| ensures gs[i].path != gs[j].path {
      DistinctStays(fs, gs, i, j);
    }
  }

  /** A permutation of a list without repeated paths has none. */
  lemma DistinctStays(fs: seq<FileManifest>, gs: seq<FileManifest>, i: nat, j: nat)
    requires multiset(gs) == multiset(fs) && i < j < |gs|
    requires forall k, l | 0 <= k < l < |fs| :: fs[k].path != fs[l].path
    ensures gs[i].path != gs[j].path
  {
    if gs[i].path == gs[j].path {
      var f, g := gs[i], gs[j];
      assert multiset(gs)[f] > 0 && multiset(gs)[g] > 0;
      assert f in fs && g in fs;
      var k :| 0 <= k < |fs| && fs[k] == f;
      var l :| 0 <= l < |fs| && fs[l] == g;
      assert f == g;
      TwiceCounts(gs, i, j);
      OnceCounts(fs, k);
    }
  }

  lemma TwiceCounts(gs: seq<FileManifest>, i: nat, j: nat)
    requires i < j < |gs| && gs[i] == gs[j]
    ensures multiset(gs)[gs[i]] >= 2
  {
    assert gs == gs[..j] + [gs[j]] + gs[j + 1..];
    assert gs[..j][i] == gs[i];
    assert multiset(gs[..j])[gs[i]] >= 1;
  }

  lemma OnceCounts(fs: seq<FileManifest>, k: nat)
    requires k < |fs| && forall i, j | 0 <= i < j < |fs| :: fs[i].path != fs[j].path
    ensures multiset(fs)[fs[k]] == 1
  {
    assert fs == fs[..k] + [fs[k]] + fs[k + 1..];
    assert fs[k] !in fs[..k] && fs[k] !in fs[k + 1..];
    assert multiset(fs[..k])[fs[k]] == 0 && multiset(fs[k + 1..])[fs[k]] == 0;
  }

  /** Manifests read from the same files are the same: the order is fixed by the paths. */
  lemma ReadingUnique(disk: Disk, links: map<Path, Rel>, repoDir: string, commit: string, fs: seq<FileManifest>,
      gs: seq<FileManifest>)
    requires IsReading(disk, links, repoDir, commit, fs) && IsReading(disk, links, repoDir, commit, gs)
    ensures fs == gs
  {
    SameMembers(disk, links, repoDir, commit, fs, gs);
    SameMembers(disk, links, repoDir, commit, gs, fs);
    SortedUnique(fs, gs);
  }

  lemma SameMembers(disk: Disk, links: map<Path, Rel>, repoDir: string, commit: string, fs: seq<FileManifest>,
      gs: seq<FileManifest>)
    requires IsReading(disk, links, repoDir, commit, fs) && IsReading(disk, links, repoDir, commit, gs)
    ensures forall f | f in fs :: f in gs
  {
  }

  /** Two strictly ascending lists with the same members are equal. */
  lemma {:induction false} SortedUnique(fs: seq<FileManifest>, gs: seq<FileManifest>)
    requires Ordered(fs) && Ordered(gs) && (forall f :: f in fs <==> f in gs)
    requires forall i, j | 0 <= i < j < |fs| :: fs[i].path != fs[j].path
    requires forall i, j | 0 <= i < j < |gs| :: gs[i].path != gs[j].path
    ensures fs == gs
    decreases |fs|
  {
    if fs == [] {
      SomeMember(gs);
    } else {
      assert fs[0] in gs;
      FirstIsLeast(fs, gs);
      var f', g' := fs[1..], gs[1..];
      forall f ensures f in f' <==> f in g' {
        assert f in fs <==> f == fs[0] || f in f';
        assert f in gs <==> f == gs[0] || f in g';
      }
      SortedUnique(f', g');
      assert fs == [fs[0]] + f' && gs == [gs[0]] + g';
    }
  }

  lemma SomeMember(gs: seq<FileManifest>)
    ensures gs != [] ==> exists f :: f in gs
  {
    if gs != [] { assert gs[0] in gs; }
  }

  lemma FirstIsLeast(fs: seq<FileManifest>, gs: seq<FileManifest>)
    requires fs != [] && gs != [] && Ordered(fs) && Ordered(gs) && (forall f :: f in fs <==> f in gs)
    requires forall i, j | 0 <= i < j < |gs| :: gs[i].path != gs[j].path
    ensures fs[0] == gs[0]
  {
    assert fs[0] in fs && gs[0] in gs;
    var i :| 0 <= i < |gs| && gs[i] == fs[0];
    var j :| 0 <= j < |fs| && fs[j] == gs[0];
    if i > 0 {
      LessTotal(gs[0].path, gs[i].path);
    }
  }

  /** b is the manifest entry of the blob that f names, under the same path and blob name. */
  predicate IsEntryFor(disk: Disk, repoDir: string, b: FileManifest, f: FileManifest) {
    var blob := BlobPath(repoDir, f.blobName);
    blob in disk && b == ReadEntry(disk, repoDir, f.path, blob) && b.blobName == f.blobName
  }

  /** What was written comes back: the same paths and blob names, sorted by path, with the
      sizes and hashes of the blobs. */
  lemma WriteThenRead(s: State, s': State, repoDir: string, commit: string, files: seq<FileManifest>,
      back: seq<FileManifest>)
    requires SnapshotEntries(s.disk, s.links, repoDir, commit) == {} && SafeSegment(repoDir)
    requires forall f, g | f in files && g in files && f.path == g.path :: f == g
    requires forall f | f in files :: !Bookkeeping(f.path)
    requires s'.links == LinksAfter(s.links, repoDir, commit, files)
    requires s'.disk == s.disk - LinkSet(repoDir, commit, files)
    requires AllPlaced(s'.disk, repoDir, files)
    requires IsReading(s'.disk, s'.links, repoDir, commit, back)
    ensures forall f | f in files :: ReadEntry(s'.disk, repoDir, f.path, BlobPath(repoDir, f.blobName)) in back
    ensures forall b | b in back :: exists f :: f in files && IsEntryFor(s'.disk, repoDir, b, f)
    ensures Ordered(back)
  {
    forall f | f in files
      ensures LinkPath(repoDir, commit, f) in Visible(s'.disk, s'.links, repoDir, commit)
      ensures Source(s'.disk, s'.links, LinkPath(repoDir, commit, f)) == Some(BlobPath(repoDir, f.blobName))
    {
      LinkReadsBack(s, s', repoDir, commit, files, f);
    }
    forall f | f in files ensures ReadEntry(s'.disk, repoDir, f.path, BlobPath(repoDir, f.blobName)) in back {
      var b :| b in back && LinkPath(repoDir, commit, b) == LinkPath(repoDir, commit, f);
      assert EntryOf(s'.disk, s'.links, repoDir, commit, b);
    }
    forall b | b in back
      ensures exists f :: f in files && IsEntryFor(s'.disk, repoDir, b, f)
    {
      var p := LinkPath(repoDir, commit, b);
      LinksAfterKeys(s.links, repoDir, commit, files);
      assert p in SnapshotEntries(s'.disk, s'.links, repoDir, commit);
      assert p in LinkSet(repoDir, commit, files) || p in SnapshotEntries(s.disk, s.links, repoDir, commit);
      var f :| f in files && LinkPath(repoDir, commit, f) == p;
      assert EntryOf(s'.disk, s'.links, repoDir, commit, b);
    }
  }

  lemma LinkReadsBack(s: State, s': State, repoDir: string, commit: string, files: seq<FileManifest>, f: FileManifest)
    requires f in files && SafeSegment(repoDir)
    requires (forall g | g in files && g.path == f.path :: g == f) && !Bookkeeping(f.path)
    requires s'.links == LinksAfter(s.links, repoDir, commit, files) && AllPlaced(s'.disk, repoDir, files)
    ensures LinkPath(repoDir, commit, f) in Visible(s'.disk, s'.links, repoDir, commit)
    ensures Source(s'.disk, s'.links, LinkPath(repoDir, commit, f)) == Some(BlobPath(repoDir, f.blobName))
  {
    LinksAfterAt(s.links, repoDir, commit, files, LinkPath(repoDir, commit, f));
    TreeJson.OnlyFile(files, f);
    LinkLeadsToBlob(repoDir, commit, f);
  }
}
