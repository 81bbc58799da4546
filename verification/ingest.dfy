/** Nocopy ingest: chunk every file in place, reference the chunks, and wire the files
    into a directory DAG. */
module Ingest {
  import opened Content
  import opened Dummy
  import opened Names
  import opened Store
  import opened References
  import opened Remote
  import opened DirTree
  import opened Paths

  /** The importer's tree over a list of chunks. */
  type Layout = seq<Cid> -> Cid

  /** What is assumed of it: the in-order leaves of its result are the chunks. */
  ghost predicate KeepsLeaves(layout: Layout) {
    forall cs | cs != [] && (forall c | c in cs :: IsRaw(c)) :: Leaves(layout(cs)) == cs
  }

  /** The fixed-size chunks of a file. */
  function Chunks(data: Bytes, size: nat): seq<Cid>
    requires size > 0
  {
    if data == [] then []
    else if |data| <= size then [Hash(Raw(data))]
    else [Hash(Raw(data[..size]))] + Chunks(data[size..], size)
  }

  /** The i-th chunk is the i-th stretch of that size, cut short only by the end of the file. */
  lemma {:induction false} ChunkAt(data: Bytes, size: nat, i: nat)
    requires size > 0 && i * size < |data|
    ensures i < |Chunks(data, size)|
    ensures var end := if (i + 1) * size < |data| then (i + 1) * size else |data|;
      i * size <= end && Chunks(data, size)[i] == Hash(Raw(data[i * size..end]))
    decreases i
  {
    var end := if (i + 1) * size < |data| then (i + 1) * size else |data|;
    if i == 0 {
      assert 0 * size == 0 && (0 + 1) * size == size;
      assert data[0..end] == if |data| <= size then data else data[..size];
    } else {
      assert i * size == (i - 1) * size + size && (i + 1) * size == i * size + size;
      assert (i - 1) * size >= 0;
      ChunkAt(data[size..], size, i - 1);
      assert data[size..][(i - 1) * size..end - size] == data[i * size..end];
    }
  }

  /** There are as many as it takes: the length over the size, rounded up. */
  lemma {:induction false} ChunkCount(data: Bytes, size: nat)
    requires size > 0
    ensures |Chunks(data, size)| * size >= |data| && (data != [] ==> (|Chunks(data, size)| - 1) * size < |data|)
    ensures |Chunks(data, size)| == (|data| + size - 1) / size
    decreases |data|
  {
    if |data| > size {
      ChunkCount(data[size..], size);
      var n := |Chunks(data[size..], size)|;
      assert (n + 1) * size == n * size + size && n * size == (n - 1) * size + size;
    }
    RoundedUp(|data|, size, |Chunks(data, size)|);
  }

  lemma RoundedUp(n: nat, d: nat, q: nat)
    requires d > 0 && q * d >= n && (n > 0 ==> (q - 1) * d < n) && (n == 0 ==> q == 0)
    ensures (n + d - 1) / d == q
  {
    var p, r := (n + d - 1) / d, (n + d - 1) % d;
    assert n + d - 1 == p * d + r;
    if n > 0 {
      assert (q - 1) * d == q * d - d && (p + 1) * d == p * d + d && (q + 1) * d == q * d + d;
      if p < q { Times(p + 1, q, d); }
      if p > q { Times(q + 1, p, d); }
    }
  }

  lemma Times(a: nat, b: nat, d: nat)
    requires a <= b
    ensures a * d <= b * d
  {
  }

  lemma {:induction false} ChunksJoin(data: Bytes, size: nat)
    requires size > 0
    ensures Payload(Chunks(data, size)) == data
    decreases |data|
  {
    if |data| > size {
      var rest := data[size..];
      ChunksJoin(rest, size);
      PayloadCons(Hash(Raw(data[..size])), Chunks(rest, size));
      assert Payload(Chunks(data, size)) == data[..size] + rest;
    } else if data != [] {
      PayloadOne(Hash(Raw(data)));
    }
  }

  lemma PayloadCons(c: Cid, cs: seq<Cid>)
    ensures Payload([c] + cs) == Data(c) + Payload(cs)
  {
    PayloadAppend([c], cs);
    PayloadOne(c);
  }

  lemma {:induction false} ChunksAreRaw(data: Bytes, size: nat)
    requires size > 0
    ensures forall c | c in Chunks(data, size) :: IsRaw(c)
    ensures Chunks(data, size) == [] <==> data == []
    decreases |data|
  {
    if |data| > size { ChunksAreRaw(data[size..], size); }
  }

  lemma PayloadOne(c: Cid)
    ensures Payload([c]) == Data(c)
  {
  }

  /** The DAG of a file: a lone empty leaf for an empty one. */
  function FileRoot(layout: Layout, size: nat, data: Bytes): Cid
    requires size > 0
  {
    if data == [] then Hash(Raw([])) else layout(Chunks(data, size))
  }

  /** The layout is over the stretches of the file, as many as it takes. */
  lemma RootOverChunks(layout: Layout, size: nat, data: Bytes) returns (cs: seq<Cid>)
    requires size > 0 && data != []
    ensures FileRoot(layout, size, data) == layout(cs) && |cs| == (|data| + size - 1) / size
    ensures forall i | 0 <= i < |cs| :: i * size < |data| && IsStretch(data, size, i, cs[i])
  {
    cs := Chunks(data, size);
    ChunkCount(data, size);
    forall i | 0 <= i < |cs| ensures i * size < |data| && IsStretch(data, size, i, cs[i]) {
      Times(i, |cs| - 1, size);
      ChunkAt(data, size, i);
    }
  }

  /** c is the leaf of the i-th stretch of that size, which the end of the file may cut short. */
  ghost predicate IsStretch(data: Bytes, size: nat, i: nat, c: Cid) {
    var end := if (i + 1) * size < |data| then (i + 1) * size else |data|;
    i * size <= end && c == Hash(Raw(data[i * size..end]))
  }

  /** Both stores only grow, by honest blocks and by references that are live, and the rest
      of the state is as it was. */
  ghost predicate Enlarged(s: State, s': State) {
    && s' == s.(blocks := s'.blocks, refs := s'.refs)
    && (forall c | c in s.blocks :: c in s'.blocks && s'.blocks[c] == s.blocks[c])
    && (forall c | c in s.refs :: c in s'.refs && s'.refs[c] == s.refs[c])
    && (forall c | c in s'.blocks && c !in s.blocks :: Hash(s'.blocks[c]) == c && c !in s.refs)
    && (forall c | c in s'.refs && c !in s.refs :: RefLive(s'.disk, c, s'.refs[c]) && c !in s.blocks)
  }

  lemma EnlargedTwice(s: State, s1: State, s2: State)
    requires Enlarged(s, s1) && Enlarged(s1, s2)
    ensures Enlarged(s, s2)
  {
  }

  lemma EnlargedKeeps(s: State, s': State)
    requires Enlarged(s, s')
    ensures Honest(s) ==> Honest(s')
    ensures RefsLive(s) ==> RefsLive(s')
    ensures forall c :: Whole(s, c) ==> Whole(s', c)
  {
  }

  lemma GrownIsEnlarged(s: State, root: Cid, s': State)
    requires Grown(s, root, s')
    ensures Enlarged(s, s')
  {
  }

  /** Adds every node of the DAG that is not a leaf. */
  method StoreNodes(n: Node, c: Cid)
    requires Honest(n.View())
    modifies n`blocks
    ensures Grown(old(n.View()), c, n.View()) && Honest(n.View())
    ensures NodesStored(n.View(), c, {})
    decreases c
  {
    ghost var s := n.View();
    if IsRaw(c) { return; }
    var links := c.content.links;
    for i := 0 to |links|
      invariant Grown(s, c, n.View()) && Honest(n.View())
      invariant ChildrenStored(n.View(), links, i, {})
    {
      ghost var s1 := n.View();
      assert InDag(links[i].cid, c) by { InLinksIff(links[i].cid, links); }
      StoreNodes(n, links[i].cid);
      GrownTwice(s1, s1, n.View(), links[i].cid, c);
      GrownTwice(s, s1, n.View(), c, c);
    }
    if c !in n.blocks && c !in n.refs {
      n.blocks := n.blocks[c := c.content];
    }
    NodesStoredFromChildren(n.View(), c, {});
  }

  /** Files a reference to each chunk at its running offset. */
  method RegisterAll(n: Node, path: Path, cs: seq<Cid>)
    modifies n`refs
    ensures n.refs == Registered(n.blocks, old(n.refs), path, cs)
  {
    var offset := 0;
    assert cs[..0] == [];
    for i := 0 to |cs|
      invariant offset == |Payload(cs[..i])|
      invariant n.refs == Registered(n.blocks, old(n.refs), path, cs[..i])
    {
      assert cs[..i + 1][..i] == cs[..i];
      n.refs := PutRef(n.blocks, n.refs, cs[i], Ref(path, offset, |Data(cs[i])|));
      offset := offset + |Data(cs[i])|;
    }
    assert cs[..|cs|] == cs;
  }

  /** Chunks one file and references its chunks where they lie. */
  method AddFileNocopy(n: Node, f: FileManifest, layout: Layout, size: nat) returns (root: Option<Cid>)
    requires Honest(n.View()) && size > 0 && KeepsLeaves(layout)
    modifies n`blocks, n`refs
    ensures root.Some? <==> f.src.Some? && f.src.value in n.disk
    ensures root.None? ==> n.View() == old(n.View())
    ensures root.Some? ==> root.value == FileRoot(layout, size, n.disk[f.src.value]) && Whole(n.View(), root.value)
    ensures root.Some? ==>
      n.refs == Registered(old(n.blocks), old(n.refs), f.src.value, Chunks(n.disk[f.src.value], size))
    ensures Enlarged(old(n.View()), n.View())
  {
    ghost var s := n.View();
    if f.src.None? || f.src.value !in n.disk { return None; }
    var path := f.src.value;
    var data := n.disk[path];
    var cs := Chunks(data, size);
    ChunksJoin(data, size);
    ChunksAreRaw(data, size);
    root := Some(FileRoot(layout, size, data));
    if data == [] {
      if root.value !in n.blocks && root.value !in n.refs {
        n.blocks := n.blocks[root.value := Raw([])];
      }
      assert Whole(n.View(), root.value);
      return;
    }
    RegisterAll(n, path, cs);
    RegisteredEnlarges(s, path, cs, n.View());
    ghost var s1 := n.View();
    StoreNodes(n, root.value);
    GrownIsEnlarged(s1, root.value, n.View());
    EnlargedTwice(s, s1, n.View());
    LeavesStoredMakeWhole(n.View(), root.value, s, path, cs);
  }

  lemma RegisteredEnlarges(s: State, path: Path, cs: seq<Cid>, s': State)
    requires path in s.disk && s.disk[path] == Payload(cs) && forall c | c in cs :: IsRaw(c)
    requires s' == s.(refs := s'.refs) && s'.refs == Registered(s.blocks, s.refs, path, cs)
    ensures Enlarged(s, s')
  {
    forall c
      ensures c in s'.refs <==> c in s.refs || (c in cs && c !in s.blocks)
    {
      RegisteredDomain(s.blocks, s.refs, path, cs, c);
    }
    forall c | c in s.refs ensures s'.refs[c] == s.refs[c] { RegisteredDomain(s.blocks, s.refs, path, cs, c); }
    forall c | c in s'.refs && c !in s.refs ensures RefLive(s'.disk, c, s'.refs[c]) {
      NewRefsLive(s.blocks, s.refs, path, cs, s'.disk, c);
    }
  }

  lemma LeavesStoredMakeWhole(s': State, root: Cid, s: State, path: Path, cs: seq<Cid>)
    requires NodesStored(s', root, {}) && Leaves(root) == cs
    requires s'.refs == Registered(s.blocks, s.refs, path, cs) && s.blocks.Keys <= s'.blocks.Keys
    ensures Whole(s', root)
  {
    forall x | InDag(x, root) ensures Has(s', x) {
      if IsRaw(x) {
        RawInDagIsLeaf(x, root);
        RegisteredDomain(s.blocks, s.refs, path, cs, x);
      }
    }
  }

  /** The manifest's files by path, each with the root of its DAG; a repeated path keeps the
      last. */
  function LeafMap(disk: Disk, layout: Layout, size: nat, files: seq<FileManifest>): map<Rel, Cid>
    requires size > 0 && forall f | f in files :: f.src.Some? && f.src.value in disk
  {
    if files == [] then map[]
    else
      var m := |files| - 1;
      LeafMap(disk, layout, size, files[..m])[Split(files[m].path) := FileRoot(layout, size, disk[files[m].src.value])]
  }

  predicate AllPresent(disk: Disk, files: seq<FileManifest>) {
    forall f | f in files :: f.src.Some? && f.src.value in disk
  }

  /** byDir sorts the paths of leaves by the directory that holds them. */
  ghost predicate GroupedByDir(byDir: map<Rel, seq<Rel>>, leaves: map<Rel, Cid>) {
    && byDir.Keys == Dirs(leaves) && [] !in leaves
    && forall d | d in byDir :: AllFilesOf(leaves, d, byDir[d])
  }

  ghost predicate AllFilesOf(leaves: map<Rel, Cid>, dir: Rel, ps: seq<Rel>) {
    forall p :: p in ps <==> p in leaves && Parent(p) == dir
  }

  ghost predicate LeavesWhole(s: State, leaves: map<Rel, Cid>) {
    forall p | p in leaves :: Whole(s, leaves[p])
  }

  /** Builds the directory node of dir, its subdirectories first. The order in which they
      are visited does not show in the result. */
  method BuildDir(n: Node, dir: Rel, byDir: map<Rel, seq<Rel>>, leaves: map<Rel, Cid>) returns (root: Cid)
    requires Honest(n.View()) && GroupedByDir(byDir, leaves) && LeavesWhole(n.View(), leaves)
    modifies n`blocks
    ensures root == DirCid(leaves, dir) && Whole(n.View(), root)
    ensures Enlarged(old(n.View()), n.View()) && Honest(n.View())
    decreases DeeperDirs(leaves, dir), 2
  {
    ghost var s := n.View();
    var entries := BuildSubdirs(n, dir, byDir, leaves);
    ghost var s1 := n.View();
    EnlargedKeeps(s, s1);
    if dir in byDir {
      entries := AddFiles(dir, entries, byDir[dir], leaves);
    }
    EntriesBuilt(byDir, leaves, dir, entries);
    root := DirNode(entries);
    if root !in n.blocks && root !in n.refs {
      n.blocks := n.blocks[root := root.content];
    }
    EnlargedTwice(s, s1, n.View());
    EnlargedKeeps(s1, n.View());
    DirWhole(n.View(), leaves, dir);
  }

  ghost predicate HoldsSubdirs(s: State, leaves: map<Rel, Cid>, dir: Rel, entries: map<string, Cid>) {
    forall name | name in entries :: entries[name] == DirCid(leaves, dir + [name]) && Whole(s, entries[name])
  }

  /** Builds the subdirectories: the keys right below dir. */
  method BuildSubdirs(n: Node, dir: Rel, byDir: map<Rel, seq<Rel>>, leaves: map<Rel, Cid>)
    returns (entries: map<string, Cid>)
    requires Honest(n.View()) && GroupedByDir(byDir, leaves) && LeavesWhole(n.View(), leaves)
    modifies n`blocks
    ensures Enlarged(old(n.View()), n.View()) && Honest(n.View())
    ensures HoldsSubdirs(n.View(), leaves, dir, entries)
    ensures forall name :: name in entries <==> dir + [name] in Dirs(leaves)
    decreases DeeperDirs(leaves, dir), 1
  {
    ghost var s := n.View();
    entries := map[];
    var todo := NamesBelow(byDir.Keys, dir);
    ghost var all := todo;
    SubdirNames(byDir.Keys, dir);
    assert Enlarged(s, n.View());
    while todo != {}
      invariant todo <= all && entries.Keys == all - todo
      invariant Enlarged(s, n.View()) && Honest(n.View())
      invariant HoldsSubdirs(n.View(), leaves, dir, entries)
    {
      var name :| name in todo;
      entries := BuildSub(n, dir, name, byDir, leaves, entries, s);
      todo := todo - {name};
    }
  }

  lemma SubdirNames(dirs: set<Rel>, dir: Rel)
    ensures forall name :: name in NamesBelow(dirs, dir) <==> dir + [name] in dirs
  {
    forall name ensures name in NamesBelow(dirs, dir) <==> dir + [name] in dirs { NamesBelowIff(dirs, dir, name); }
  }

  /** Builds one subdirectory and links it. */
  method BuildSub(n: Node, dir: Rel, name: string, byDir: map<Rel, seq<Rel>>, leaves: map<Rel, Cid>,
      entries: map<string, Cid>, ghost s: State)
    returns (r: map<string, Cid>)
    requires Honest(n.View()) && GroupedByDir(byDir, leaves) && LeavesWhole(s, leaves) && Enlarged(s, n.View())
    requires dir + [name] in Dirs(leaves) && HoldsSubdirs(n.View(), leaves, dir, entries)
    modifies n`blocks
    ensures Enlarged(s, n.View()) && Honest(n.View())
    ensures HoldsSubdirs(n.View(), leaves, dir, r) && r.Keys == entries.Keys + {name}
    decreases DeeperDirs(leaves, dir), 0
  {
    ghost var s1 := n.View();
    EnlargedKeeps(s, s1);
    DeeperShrinks(leaves, dir, name);
    var node := BuildDir(n, dir + [name], byDir, leaves);
    EnlargedTwice(s, s1, n.View());
    r := entries[name := node];
    SubdirsOneMore(s1, n.View(), leaves, dir, entries, name);
  }

  lemma SubdirsOneMore(s: State, s': State, leaves: map<Rel, Cid>, dir: Rel, entries: map<string, Cid>, name: string)
    requires HoldsSubdirs(s, leaves, dir, entries) && Enlarged(s, s') && Whole(s', DirCid(leaves, dir + [name]))
    ensures HoldsSubdirs(s', leaves, dir, entries[name := DirCid(leaves, dir + [name])])
  {
  }

  /** Links the files of dir, over any subdirectory of the same name. */
  method AddFiles(dir: Rel, entries: map<string, Cid>, files: seq<Rel>, leaves: map<Rel, Cid>)
    returns (r: map<string, Cid>)
    requires forall p | p in files :: p in leaves && p != [] && Parent(p) == dir
    ensures forall name :: name in r <==> name in entries || dir + [name] in files
    ensures forall name | name in r :: r[name] == if dir + [name] in files then leaves[dir + [name]] else entries[name]
  {
    r := entries;
    for i := 0 to |files|
      invariant forall name :: name in r <==> name in entries || dir + [name] in files[..i]
      invariant forall name | name in r ::
        r[name] == if dir + [name] in files[..i] then leaves[dir + [name]] else entries[name]
    {
      var p := files[i];
      assert p in files && p == dir + [p[|p| - 1]];
      assert files[..i + 1] == files[..i] + [p];
      r := r[p[|p| - 1] := leaves[p]];
      forall name ensures dir + [name] == p <==> name == p[|p| - 1] {
        assert (dir + [name])[|dir|] == name;
      }
    }
    assert files[..|files|] == files;
  }

  lemma EntriesBuilt(byDir: map<Rel, seq<Rel>>, leaves: map<Rel, Cid>, dir: Rel, entries: map<string, Cid>)
    requires GroupedByDir(byDir, leaves)
    requires forall name :: name in entries <==> dir + [name] in Dirs(leaves) || IsFileOf(byDir, dir, name)
    requires forall name | name in entries ::
      entries[name] ==
        if IsFileOf(byDir, dir, name) && dir + [name] in leaves then leaves[dir + [name]]
        else DirCid(leaves, dir + [name])
    ensures entries == Entries(leaves, dir)
  {
    var names := EntryNames(leaves, dir);
    forall name ensures name in entries <==> name in names {
      EntryNamesIff(leaves, dir, name);
      FileOfDir(byDir, leaves, dir, name);
    }
    forall name | name in names
      ensures entries[name] == if dir + [name] in leaves then leaves[dir + [name]] else DirCid(leaves, dir + [name])
    {
      FileOfDir(byDir, leaves, dir, name);
    }
    EntriesAre(leaves, dir, entries);
  }

  lemma EntriesAre(leaves: map<Rel, Cid>, dir: Rel, entries: map<string, Cid>)
    requires entries.Keys == EntryNames(leaves, dir)
    requires forall name | name in EntryNames(leaves, dir) ::
      entries[name] == if dir + [name] in leaves then leaves[dir + [name]] else DirCid(leaves, dir + [name])
    ensures entries == Entries(leaves, dir)
  {
    assert entries.Keys == Entries(leaves, dir).Keys;
  }

  predicate IsFileOf(byDir: map<Rel, seq<Rel>>, dir: Rel, name: string) {
    dir in byDir && dir + [name] in byDir[dir]
  }

  lemma FileOfDir(byDir: map<Rel, seq<Rel>>, leaves: map<Rel, Cid>, dir: Rel, name: string)
    requires GroupedByDir(byDir, leaves)
    ensures dir + [name] in leaves <==> IsFileOf(byDir, dir, name)
  {
  }

  /** A stored directory whose entries are whole is whole. */
  lemma DirWhole(s: State, leaves: map<Rel, Cid>, dir: Rel)
    requires Has(s, DirCid(leaves, dir)) && LeavesWhole(s, leaves)
    requires forall name | dir + [name] in Dirs(leaves) && dir + [name] !in leaves ::
      Whole(s, DirCid(leaves, dir + [name]))
    ensures Whole(s, DirCid(leaves, dir))
  {
    forall x | InDag(x, DirCid(leaves, dir)) ensures Has(s, x) {
      if x != DirCid(leaves, dir) {
        var name := EntryAbove(leaves, dir, x);
        assert Whole(s, EntryAt(leaves, dir + [name]));
      }
    }
  }

  function WithPath(byDir: map<Rel, seq<Rel>>, p: Rel): map<Rel, seq<Rel>> {
    var d := Parent(p);
    byDir[d := (if d in byDir then byDir[d] else []) + [p]]
  }

  lemma GroupedOneMore(byDir: map<Rel, seq<Rel>>, leaves: map<Rel, Cid>, p: Rel, root: Cid)
    requires GroupedByDir(byDir, leaves) && p != []
    ensures GroupedByDir(WithPath(byDir, p), leaves[p := root])
  {
  }

  /** Adds one file and notes its root and its directory. */
  method AddNext(n: Node, f: FileManifest, layout: Layout, size: nat, leaves: map<Rel, Cid>, byDir: map<Rel, seq<Rel>>)
    returns (ok: bool, leaves': map<Rel, Cid>, byDir': map<Rel, seq<Rel>>)
    requires Honest(n.View()) && size > 0 && KeepsLeaves(layout)
    requires GroupedByDir(byDir, leaves) && LeavesWhole(n.View(), leaves)
    modifies n`blocks, n`refs
    ensures ok <==> f.src.Some? && f.src.value in n.disk
    ensures Enlarged(old(n.View()), n.View()) && Honest(n.View())
    ensures ok ==> leaves' == leaves[Split(f.path) := FileRoot(layout, size, n.disk[f.src.value])]
    ensures ok ==> GroupedByDir(byDir', leaves') && LeavesWhole(n.View(), leaves')
  {
    ghost var s := n.View();
    leaves', byDir' := leaves, byDir;
    var leaf := AddFileNocopy(n, f, layout, size);
    EnlargedKeeps(s, n.View());
    ok := leaf.Some?;
    if ok {
      GroupedOneMore(byDir, leaves, Split(f.path), leaf.value);
      leaves' := leaves[Split(f.path) := leaf.value];
      byDir' := WithPath(byDir, Split(f.path));
    }
  }

  /** Adds every file and wires the results into a directory tree. */
  method BuildTree(n: Node, files: seq<FileManifest>, layout: Layout, size: nat) returns (root: Option<Cid>)
    requires Honest(n.View()) && size > 0 && KeepsLeaves(layout)
    modifies n`blocks, n`refs
    ensures root.Some? <==> AllPresent(n.disk, files)
    ensures root.Some? ==> root.value == DirCid(LeafMap(n.disk, layout, size, files), []) && Whole(n.View(), root.value)
    ensures Enlarged(old(n.View()), n.View()) && Honest(n.View())
  {
    ghost var s := n.View();
    var leaves: map<Rel, Cid> := map[];
    var byDir: map<Rel, seq<Rel>> := map[];
    for i := 0 to |files|
      invariant Enlarged(s, n.View()) && Honest(n.View())
      invariant AllPresent(n.disk, files[..i]) && leaves == LeafMap(n.disk, layout, size, files[..i])
      invariant GroupedByDir(byDir, leaves) && LeavesWhole(n.View(), leaves)
    {
      assert files[..i + 1][..i] == files[..i] && files[..i + 1] == files[..i] + [files[i]];
      ghost var s1 := n.View();
      var ok: bool;
      ok, leaves, byDir := AddNext(n, files[i], layout, size, leaves, byDir);
      EnlargedTwice(s, s1, n.View());
      if !ok { return None; }
    }
    assert files[..|files|] == files;
    ghost var s1 := n.View();
    var top := BuildDir(n, [], byDir, leaves);
    EnlargedTwice(s, s1, n.View());
    root := Some(top);
  }

  /** Ingests one revision: build the DAG, then record the mapping. */
  method Run(n: Node, repoId: string, t: RepoType, commit: string, files: seq<FileManifest>, layout: Layout, size: nat)
    returns (ok: bool)
    requires Honest(n.View()) && size > 0 && KeepsLeaves(layout)
    modifies n`blocks, n`refs, n`mapping
    ensures ok <==> files != [] && AllPresent(n.disk, files) && ValidCommit(commit)
    ensures IngestStep(old(n.View()), n.View(), commit, ok)
    ensures PromisesKept(old(n.View()), n.View())
    ensures files == [] ==> n.View() == old(n.View())
    ensures ok ==>
      (var root := DirCid(LeafMap(n.disk, layout, size, files), []);
       Whole(n.View(), root) && n.mapping == old(n.mapping)[commit := Entry(repoId, t, commit, Some(root), files)])
  {
    ghost var s := n.View();
    if files == [] { return false; }
    var root := BuildTree(n, files, layout, size);
    ok := root.Some? && ValidCommit(commit);
    if ok { n.mapping := n.mapping[commit := Entry(repoId, t, commit, root, files)]; }
    IngestKeepsPromises(s, n.View(), commit, ok);
  }

  /** What an ingest does, with or without success: the stores only grow, and a commit is mapped
      only to a root that is whole. */
  ghost predicate IngestStep(s: State, s': State, commit: string, ok: bool) {
    && Enlarged(s, s'.(mapping := s.mapping))
    && if !ok then s'.mapping == s.mapping
       else
         && commit in s'.mapping && s'.mapping == s.mapping[commit := s'.mapping[commit]]
         && var e := s'.mapping[commit]; e.commit == commit && e.actual.Some? && Whole(s', e.actual.value)
  }

  /** None of the three promises is broken. */
  ghost predicate PromisesKept(s: State, s': State) {
    && (Honest(s) ==> Honest(s')) && (RefsLive(s) ==> RefsLive(s'))
    && (Coherent(s) && Closed(s) ==> Coherent(s') && Closed(s'))
  }

  lemma IngestKeepsPromises(s: State, s': State, commit: string, ok: bool)
    requires IngestStep(s, s', commit, ok)
    ensures PromisesKept(s, s')
  {
    EnlargedKeeps(s, s'.(mapping := s.mapping));
    forall c | c in s'.refs && c !in s.refs ensures IsRaw(c) { assert RefLive(s'.disk, c, s'.refs[c]); }
    if Coherent(s) && Closed(s) {
      if ok { RecordDecidesClosed(s, s', commit, s'.mapping[commit]); } else { LossDecidesClosed(s, s'); }
    }
  }
}
