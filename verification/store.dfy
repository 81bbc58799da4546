/** The coupled state of one node, and the three promises about it: references are
    live, stored blocks are honest, and mapped revisions are whole. */
module Store {
  import opened Content
  import opened Dummy
  import opened Graph
  import opened Names

  /** A file in the cache of the hub directory, or anywhere else on the host. */
  datatype Path =
    | BlobPath(repoDir: string, name: string)
    | SnapPath(repoDir: string, commit: string, rel: string)
    | HostPath(text: string)

  /** The bytes of a chunk live at path[offset .. offset + size]. */
  datatype Ref = Ref(path: Path, offset: nat, size: nat)

  type Refs = map<Cid, Ref>
  type Disk = map<Path, Bytes>

  datatype FileManifest = FileManifest(
    path: string, blobName: string, size: int, sha256: Digest,
    lfs: bool, xetHash: string, src: Option<Path>)

  /** One shared revision. actual is None when the recorded root does not decode. */
  datatype Entry = Entry(
    repoId: string, repoType: RepoType, commit: string, actual: Option<Cid>, files: seq<FileManifest>)

  datatype TreeFile = TreeFile(size: int, blobId: string, lfsSha256: Digest, lfsSize: int, xetHash: string)

  type TreeDoc = map<string, TreeFile>

  /** The ref that is followed when none is named. */
  const MAIN := "main"

  /** blocks and refs are the two halves of the filestore, disk the regular files,
      links the snapshot symlinks, heads the refs files by repository directory and ref name. */
  datatype State = State(
    blocks: Blocks, refs: Refs, disk: Disk, mapping: map<string, Entry>,
    links: map<Path, seq<string>>, heads: map<(string, string), string>, trees: map<(string, string), TreeDoc>)

  class Node {
    var blocks: Blocks
    var refs: Refs
    var disk: Disk
    var mapping: map<string, Entry>
    var links: map<Path, seq<string>>
    var heads: map<(string, string), string>
    var trees: map<(string, string), TreeDoc>

    constructor (s: State)
      ensures View() == s
    {
      blocks, refs, disk, mapping := s.blocks, s.refs, s.disk, s.mapping;
      links, heads, trees := s.links, s.heads, s.trees;
    }

    function View(): State
      reads this
    {
      State(blocks, refs, disk, mapping, links, heads, trees)
    }
  }

  /** Nothing changed but blocks, references and files. */
  ghost predicate OnlyStores(s: State, s': State) {
    s'.mapping == s.mapping && s'.links == s.links && s'.heads == s.heads && s'.trees == s.trees
  }

  /** The map less a set of keys. */
  ghost function Without<V>(m: map<Cid, V>, dead: iset<Cid>): map<Cid, V> {
    map c | c in m && c !in dead :: m[c]
  }

  ghost predicate SameFile(d: Disk, d': Disk, p: Path) {
    (p in d <==> p in d') && (p in d ==> d[p] == d'[p])
  }

  lemma WithoutTwice<V>(m: map<Cid, V>, a: iset<Cid>, b: iset<Cid>)
    ensures Without(Without(m, a), b) == Without(m, a + b)
  {
  }

  function EntryDir(e: Entry): string {
    RepoDirName(e.repoId, e.repoType)
  }

  /** refs/main of the repository directory names the commit. */
  predicate IsHead(s: State, dir: string, commit: string) {
    (dir, MAIN) in s.heads && s.heads[(dir, MAIN)] == commit && ValidCommit(commit)
  }

  /** p lies in the snapshot directory of a revision. */
  predicate Under(repoDir: string, commit: string, p: Path) {
    p.SnapPath? && p.repoDir == repoDir && p.commit == commit
  }

  /** Reading the reference gives bytes that hash to the CID it is filed under. */
  predicate RefLive(disk: Disk, c: Cid, r: Ref) {
    && r.path in disk
    && r.offset + r.size <= |disk[r.path]|
    && Hash(Raw(disk[r.path][r.offset..r.offset + r.size])) == c
  }

  ghost predicate RefsLive(s: State) {
    forall c | c in s.refs :: RefLive(s.disk, c, s.refs[c])
  }

  /** Only leaves are referenced. Live references have no choice. */
  ghost predicate RefsRaw(s: State) {
    forall c | c in s.refs :: IsRaw(c)
  }

  /** Every stored block is filed under the CID of its content. */
  ghost predicate Honest(s: State) {
    forall c | c in s.blocks :: Hash(s.blocks[c]) == c
  }

  /** The stores agree that a CID is in one of them only. */
  ghost predicate Disjoint(s: State) {
    s.blocks.Keys !! s.refs.Keys
  }

  /** Entries are filed under their own commit. */
  ghost predicate Filed(s: State) {
    forall k | k in s.mapping :: s.mapping[k].commit == k
  }

  predicate Has(s: State, c: Cid) {
    c in s.blocks || c in s.refs
  }

  /** Everything that present blocks lead to from root is itself stored. */
  ghost predicate Servable(s: State, root: Cid) {
    forall x | Reaches(s.blocks, root, x) :: Has(s, x)
  }

  ghost predicate Closed(s: State) {
    forall k | k in s.mapping && s.mapping[k].actual.Some? :: Servable(s, s.mapping[k].actual.value)
  }

  datatype Reply = Found(block: Block) | Absent | Broken

  /** Filestore.Get: the block store first, then the verified reference. */
  function Serve(s: State, c: Cid): Reply {
    if c in s.blocks then Found(s.blocks[c])
    else if c !in s.refs then Absent
    else
      var r := s.refs[c];
      if RefLive(s.disk, c, r) then Found(Raw(s.disk[r.path][r.offset..r.offset + r.size])) else Broken
  }

  /** An honest store serves the right block, or none: none that it does not have, and none through
      a reference whose bytes are gone or changed. */
  lemma ServedIsRight(s: State, c: Cid)
    requires Honest(s) && RefsRaw(s)
    ensures Serve(s, c).Found? ==> Serve(s, c) == Found(c.content)
    ensures Serve(s, c).Absent? <==> c !in s.blocks && c !in s.refs
    ensures Serve(s, c).Broken? <==> c !in s.blocks && c in s.refs && var r := s.refs[c];
      !(r.path in s.disk && r.offset + r.size <= |s.disk[r.path]| &&
        s.disk[r.path][r.offset..r.offset + r.size] == Data(c))
  {
    if c in s.refs { assert IsRaw(c) && c == Hash(Raw(Data(c))); }
  }

  /** The whole DAG below root is stored. */
  ghost predicate Whole(s: State, root: Cid) {
    forall x | InDag(x, root) :: Has(s, x)
  }

  /** Blocks are honest and references are for leaves: then a store's links are those of the
      CIDs themselves. */
  ghost predicate Coherent(s: State) {
    Honest(s) && RefsRaw(s)
  }

  lemma LiveIsCoherent(s: State)
    requires Honest(s) && RefsLive(s)
    ensures Coherent(s)
  {
  }

  /** Whatever a root reaches through honest blocks lies in its DAG. */
  lemma ReachedIsInDag(s: State, root: Cid, x: Cid)
    requires Honest(s) && Reaches(s.blocks, root, x)
    ensures InDag(x, root)
  {
    var below := iset y | InDag(y, root);
    forall a, b | a in below && Edge(s.blocks, a, b) ensures b in below {
      assert Hash(s.blocks[a]) == a;
      InLinksIff(b, a.content.links);
      InDagTransitive(b, a, root);
    }
    ClosedHoldsReachable(s.blocks, below, root, x);
  }

  /** Conversely a servable root reaches its whole DAG. */
  lemma {:induction false} DagIsReached(s: State, root: Cid, c: Cid, x: Cid)
    requires Coherent(s) && Servable(s, root)
    requires Reaches(s.blocks, root, c) && InDag(x, c)
    ensures Reaches(s.blocks, root, x)
    decreases c
  {
    if x != c {
      assert Has(s, c);
      assert Hash(s.blocks[c]) == c;
      var links := Links(s.blocks[c]);
      InLinksIff(x, links);
      var i :| 0 <= i < |links| && InDag(x, links[i].cid);
      assert Edge(s.blocks, c, links[i].cid);
      ReachesStep(s.blocks, root, c, links[i].cid);
      DagIsReached(s, root, links[i].cid, x);
    }
  }

  /** Being closed along the links of present blocks is the same as having the whole
      DAG, on coherent stores. */
  lemma ServableIsWhole(s: State, root: Cid)
    requires Coherent(s)
    ensures Servable(s, root) <==> Whole(s, root)
  {
    ReachesSelf(s.blocks, root);
    if Servable(s, root) {
      forall x | InDag(x, root) ensures Has(s, x) { DagIsReached(s, root, root, x); }
    }
    if Whole(s, root) {
      forall x | Reaches(s.blocks, root, x) ensures Has(s, x) { ReachedIsInDag(s, root, x); }
    }
  }

  /** x lies in the DAG of a mapped revision. */
  ghost predicate BelowMapped(s: State, x: Cid) {
    exists k :: k in s.mapping && s.mapping[k].actual.Some? && InDag(x, s.mapping[k].actual.value)
  }

  lemma ClosedIffWhole(s: State)
    requires Coherent(s)
    ensures Closed(s) <==> forall x | BelowMapped(s, x) :: Has(s, x)
  {
    forall k | k in s.mapping && s.mapping[k].actual.Some?
      ensures Servable(s, s.mapping[k].actual.value) <==> Whole(s, s.mapping[k].actual.value)
    {
      ServableIsWhole(s, s.mapping[k].actual.value);
    }
    if forall x | BelowMapped(s, x) :: Has(s, x) {
      forall k | k in s.mapping && s.mapping[k].actual.Some? ensures Whole(s, s.mapping[k].actual.value) {
        forall x | InDag(x, s.mapping[k].actual.value) ensures Has(s, x) { assert BelowMapped(s, x); }
      }
    }
  }

  /** No CID that was taken away lies in the DAG of a mapped revision. */
  ghost predicate NothingMappedLost(s: State, s': State) {
    forall x | Has(s, x) && !Has(s', x) :: !BelowMapped(s, x)
  }

  /** While the mapping stays, mapped revisions stay whole exactly when nothing of them is
      lost, whatever else comes or goes. */
  lemma LossDecidesClosed(s: State, s': State)
    requires Coherent(s) && Coherent(s') && s'.mapping == s.mapping && Closed(s)
    ensures Closed(s') <==> NothingMappedLost(s, s')
  {
    ClosedIffWhole(s);
    ClosedIffWhole(s');
    assert forall x :: BelowMapped(s, x) <==> BelowMapped(s', x);
  }

  /** When nothing is lost and one revision is recorded, they stay whole exactly when that one
      is whole. */
  lemma RecordDecidesClosed(s: State, s': State, commit: string, e: Entry)
    requires Coherent(s) && Coherent(s') && s'.mapping == s.mapping[commit := e] && Closed(s)
    requires forall x | Has(s, x) :: Has(s', x)
    ensures Closed(s') <==> (e.actual.Some? ==> Whole(s', e.actual.value))
  {
    ClosedIffWhole(s);
    ClosedIffWhole(s');
    if e.actual.Some? && Closed(s') {
      forall x | InDag(x, e.actual.value) ensures Has(s', x) {
        assert s'.mapping[commit] == e;
        assert BelowMapped(s', x);
      }
    }
    if e.actual.Some? ==> Whole(s', e.actual.value) {
      forall x | BelowMapped(s', x) ensures Has(s', x) {
        var k :| k in s'.mapping && s'.mapping[k].actual.Some? && InDag(x, s'.mapping[k].actual.value);
        if k != commit { assert BelowMapped(s, x); }
      }
    }
  }

  /** A node that keeps the three promises serves every block of every mapped
      revision, byte for byte. */
  lemma MappedRevisionsServed(s: State, k: string, x: Cid)
    requires Honest(s) && RefsLive(s) && Closed(s)
    requires k in s.mapping && s.mapping[k].actual.Some? && InDag(x, s.mapping[k].actual.value)
    ensures Serve(s, x) == Found(x.content)
  {
    LiveIsCoherent(s);
    ServableIsWhole(s, s.mapping[k].actual.value);
    assert Has(s, x);
    if x in s.blocks { assert Hash(s.blocks[x]) == x; } else { assert RefLive(s.disk, x, s.refs[x]); }
  }
}
