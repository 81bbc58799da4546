/** Pulling one file of a revision: locate it in the DAG and rebuild it. */
module PullOne {
  import opened Content
  import opened Graph
  import opened Store
  import opened References
  import opened Remote
  import opened DirTree
  import opened Paths
  import opened Reconstruct
  import opened FileLaws

  // ---- Finding a file ----

  /** x is a node on the way from root along parts, the last one included. */
  ghost predicate OnWay(root: Cid, parts: Rel, x: Cid) {
    !IsRaw(x) && exists i :: 0 <= i <= |parts| && Lookup(root, parts[..i]) == Some(x)
  }

  predicate NodeKept(s: State, c: Cid, unstored: set<Cid>) {
    IsRaw(c) || c in unstored || Has(s, c)
  }

  /** The first i + 1 nodes on the way are stored, save those whose storing failed. */
  ghost predicate WayStored(s: State, root: Cid, parts: Rel, i: nat, unstored: set<Cid>) {
    forall j | 0 <= j <= i <= |parts| ::
      Lookup(root, parts[..j]).Some? && NodeKept(s, Lookup(root, parts[..j]).value, unstored)
  }

  /** Nothing but nodes on the way was added. */
  ghost predicate WayAdded(s: State, s': State, root: Cid, parts: Rel) {
    forall x | x in s'.blocks && x !in s.blocks :: OnWay(root, parts, x)
  }

  /** Everything below c can be had, leaves included. */
  ghost predicate Served(answers: (nat, Cid) -> Answer, c: Cid) {
    forall x | InDag(x, c) :: Supplies(answers, x)
  }

  /** Walks from the root along the segments of a path. Each child is fetched as it is found. */
  method FindNode(n: Node, peer: Peer, root: Cid, parts: Rel, unstored: set<Cid>) returns (r: Option<Cid>)
    requires Honest(n.View())
    modifies n`blocks, peer
    ensures r.Some? ==> r == Lookup(root, parts) && InDag(r.value, root)
    ensures r.Some? && parts != [] ==> WayStored(n.View(), root, parts, |parts|, unstored)
    ensures Served(peer.answers, root) ==> r == Lookup(root, parts)
    ensures Grown(old(n.View()), root, n.View()) && Honest(n.View())
    ensures WayAdded(old(n.View()), n.View(), root, parts) && Unfailed(old(n.View()), n.View(), unstored)
  {
    ghost var s := n.View();
    var cur := root;
    for i := 0 to |parts|
      invariant Lookup(root, parts[..i]) == Some(cur) && InDag(cur, root)
      invariant i > 0 ==> WayStored(n.View(), root, parts, i, unstored)
      invariant Grown(s, root, n.View()) && Honest(n.View())
      invariant WayAdded(s, n.View(), root, parts) && Unfailed(s, n.View(), unstored)
    {
      LookupSnoc(root, parts[..i], parts[i]);
      assert parts[..i + 1] == parts[..i] + [parts[i]];
      if Child(cur, parts[i]).None? { LookupLost(root, parts, i + 1); }
      ghost var s1 := n.View();
      var child := Step(n, peer, cur, parts[i], root, unstored);
      GrownTwice(s, s1, n.View(), root, root);
      if child.None? { return None; }
      WayStoredStep(s1, n.View(), root, parts, i, unstored);
      cur := child.value;
    }
    assert parts[..|parts|] == parts;
    r := Some(cur);
  }

  /** Opens cur as a directory and finds and fetches one child. */
  method Step(n: Node, peer: Peer, cur: Cid, name: string, ghost root: Cid, unstored: set<Cid>) returns (r: Option<Cid>)
    requires Honest(n.View()) && InDag(cur, root)
    modifies n`blocks, peer
    ensures r.Some? ==> r == Child(cur, name) && InDag(r.value, root)
    ensures r.Some? ==> NodeKept(n.View(), cur, unstored) && NodeKept(n.View(), r.value, unstored)
    ensures Served(peer.answers, root) ==> r == Child(cur, name)
    ensures Grown(old(n.View()), root, n.View()) && Honest(n.View()) && Unfailed(old(n.View()), n.View(), unstored)
    ensures forall x | x in n.blocks && x !in old(n.blocks) :: x == cur || Child(cur, name) == Some(x)
  {
    ghost var s := n.View();
    var b := Get(n, peer, cur, unstored);
    GrownKeeps(s, cur, n.View());
    GrownTwice(s, s, n.View(), cur, root);
    if b.None? || b.value.Raw? || b.value.kind != Directory { return None; }
    r := FindLink(b.value.links, name);
    if r.None? { return; }
    FindLinkBelow(b.value.links, name);
    InDagTransitive(r.value, cur, root);
    ghost var s1 := n.View();
    var child := Get(n, peer, r.value, unstored);
    GrownKeeps(s1, r.value, n.View());
    GrownTwice(s, s1, n.View(), r.value, root);
    if child.None? { return None; }
  }

  lemma WayStoredStep(s: State, s': State, root: Cid, parts: Rel, i: nat, unstored: set<Cid>)
    requires i < |parts| && (i > 0 ==> WayStored(s, root, parts, i, unstored)) && Grown(s, root, s')
    requires Lookup(root, parts[..i]).Some? && NodeKept(s', Lookup(root, parts[..i]).value, unstored)
    requires Lookup(root, parts[..i + 1]).Some? && NodeKept(s', Lookup(root, parts[..i + 1]).value, unstored)
    ensures WayStored(s', root, parts, i + 1, unstored)
  {
  }

  // ---- One file ----

  function BlobOf(repoDir: string, f: FileManifest): Path {
    BlobPath(repoDir, f.blobName)
  }

  /** Length and hash of the blob of that name, if it is there. */
  function Summary(disk: Disk, repoDir: string, name: string): Option<(int, Digest)> {
    var p := BlobPath(repoDir, name);
    if p in disk then Some((|disk[p]|, Sha256(disk[p]))) else None
  }

  /** The same for the blob that a file leaves: an empty one whatever the hash of an empty file,
      else the one its manifest describes. */
  function Settled(f: FileManifest): (int, Digest) {
    (f.size, if f.size == 0 then Sha256([]) else f.sha256)
  }

  ghost predicate BlobDone(s: State, repoDir: string, f: FileManifest) {
    Summary(s.disk, repoDir, f.blobName) == Some(Settled(f))
  }

  /** What pulling f adds to what is stored: the nodes on the way, and the file's own DAG unless
      the file is found on disk. */
  ghost predicate FileSupplied(disk: Disk, repoDir: string, root: Cid, f: FileManifest, unstored: set<Cid>, x: Cid) {
    || (OnWay(root, Split(f.path), x) && x !in unstored)
    || (!HasBlob(disk, repoDir, f) && InFile(root, f, unstored, x))
  }

  ghost predicate InFile(root: Cid, f: FileManifest, unstored: set<Cid>, x: Cid) {
    Lookup(root, Split(f.path)).Some? && FileGain(f, Lookup(root, Split(f.path)).value, unstored, x)
  }

  /** x is a leaf of the file. */
  ghost predicate LeafOf(root: Cid, f: FileManifest, x: Cid) {
    Lookup(root, Split(f.path)).Some? && IsRaw(x) && x in Leaves(Lookup(root, Split(f.path)).value)
  }

  /** References are as they were, or new ones for leaves in the blob of f. */
  ghost predicate RefsOnlyInto(s: State, s': State, repoDir: string, f: FileManifest) {
    forall x | x in s'.refs :: (x in s.refs && s'.refs[x] == s.refs[x]) ||
      (IsRaw(x) && s'.refs[x].path == BlobOf(repoDir, f) && f.size != 0 && !HasBlob(s.disk, repoDir, f))
  }

  ghost predicate OtherFilesSame(s: State, s': State, repoDir: string, f: FileManifest, suffix: string) {
    forall p | p != BlobOf(repoDir, f) && p != PartPath(repoDir, f.blobName, suffix) :: SameFile(s.disk, s'.disk, p)
  }

  ghost predicate OnlyBlobRefsDie(s: State, s': State, repoDir: string, f: FileManifest, suffix: string) {
    Unreferenced(s.refs, PartPath(repoDir, f.blobName, suffix)) ==>
      forall x | x in s'.refs :: LiveOrOld(s, s', BlobOf(repoDir, f), x)
  }

  /** How a failed one ended: the number of chunks that were registered, and so taken back, and
      whether the blob had been written. */
  datatype Stop = Stop(count: nat, wrote: bool)

  const AT_ONCE := Stop(0, false)

  function StopOf(r: Outcome, k: nat): Stop
    requires r.Failed?
  {
    Stop(if EarlyStage(r.stage) then 0 else k, LateStage(r.stage))
  }

  /** x is among the first k leaves of the file. */
  ghost predicate FirstLeaf(root: Cid, f: FileManifest, k: nat, x: Cid) {
    && Lookup(root, Split(f.path)).Some?
    && k <= |Leaves(Lookup(root, Split(f.path)).value)| && x in Leaves(Lookup(root, Split(f.path)).value)[..k]
  }

  /** What a successful pull of one file does to the stores and to its blob. */
  ghost predicate FileAdded(s: State, s': State, repoDir: string, root: Cid, f: FileManifest, unstored: set<Cid>) {
    && (forall x :: Has(s', x) <==> Has(s, x) || FileSupplied(s.disk, repoDir, root, f, unstored, x))
    && BlobDone(s', repoDir, f)
    && (forall x | x in s.refs :: x in s'.refs && s'.refs[x] == s.refs[x])
  }

  /** What a failed one does: exactly the registered chunks are lost, at most blocks of the DAG
      added, and the blob is written or left alone. */
  ghost predicate FileFailed(s: State, s': State, repoDir: string, root: Cid, f: FileManifest, stop: Stop) {
    && (forall x | Has(s', x) && !Has(s, x) :: InDag(x, root))
    && (forall x | Has(s, x) :: !Has(s', x) <==> FirstLeaf(root, f, stop.count, x))
    && (forall x | x in s.refs :: x !in s'.refs <==> FirstLeaf(root, f, stop.count, x))
    && (forall x | FirstLeaf(root, f, stop.count, x) ::
      !HasBlob(s.disk, repoDir, f) && f.size != 0 && LeafOf(root, f, x))
    && (forall x | x in s'.refs :: x in s.refs && s'.refs[x] == s.refs[x])
    && if stop.wrote then BlobDone(s', repoDir, f) else SameFile(s.disk, s'.disk, BlobOf(repoDir, f))
  }

  /** A file that is found on disk is left alone. */
  ghost predicate NothingWritten(s: State, s': State, repoDir: string, f: FileManifest) {
    HasBlob(s.disk, repoDir, f) ==> s'.disk == s.disk && s'.refs == s.refs
  }

  ghost predicate FileStep(s: State, s': State, repoDir: string, root: Cid, f: FileManifest, suffix: string,
      unstored: set<Cid>, ok: bool, stop: Stop)
  {
    && OnlyStores(s, s') && Honest(s')
    && RefsOnlyInto(s, s', repoDir, f) && OtherFilesSame(s, s', repoDir, f, suffix)
    && OnlyBlobRefsDie(s, s', repoDir, f, suffix) && NothingWritten(s, s', repoDir, f)
    && if ok then FileAdded(s, s', repoDir, root, f, unstored) else FileFailed(s, s', repoDir, root, f, stop)
  }

  /** The peer supplies everything below root, every manifest path leads to a file its entry
      describes, and the machine does not fail. */
  ghost predicate Favourable(answers: (nat, Cid) -> Answer, root: Cid, files: seq<FileManifest>, budget: nat,
      faults: Faults)
  {
    && Served(answers, root) && faults == NO_FAULTS
    && forall f | f in files ::
      Lookup(root, Split(f.path)).Some? && Describes(f, Lookup(root, Split(f.path)).value, budget)
  }

  /** Every chunk of the file has come from the peer. */
  ghost predicate ChunksCame(answers: (nat, Cid) -> Answer, root: Cid, f: FileManifest) {
    Lookup(root, Split(f.path)).Some? && Delivered(answers, Leaves(Lookup(root, Split(f.path)).value))
  }

  /** Locates one manifest file and rebuilds it. Mapped revisions stay whole exactly when none of
      the chunks that a failed one takes back belongs to one. */
  method PullFile(n: Node, repoDir: string, root: Cid, f: FileManifest, peer: Peer, state: Transfer, budget: nat,
      suffix: string, faults: Faults)
    returns (ok: bool, ghost stop: Stop)
    requires Honest(n.View())
    modifies n`disk, n`refs, n`blocks, peer, state
    ensures FileStep(old(n.View()), n.View(), repoDir, root, f, suffix, faults.unstored, ok, stop)
    ensures RefsRaw(old(n.View())) && Closed(old(n.View()))
      ==> (Closed(n.View()) <==> ok || forall x | FirstLeaf(root, f, stop.count, x) :: !BelowMapped(old(n.View()), x))
    ensures ok ==> state.done == old(state.done) + f.size
    ensures ok && !HasBlob(old(n.disk), repoDir, f) && f.size != 0 ==> ChunksCame(peer.answers, root, f)
    ensures Favourable(peer.answers, root, [f], budget, faults) ==> ok
  {
    ghost var s := n.View();
    var parts := Split(f.path);
    var c := FindNode(n, peer, root, parts, faults.unstored);
    ghost var s1 := n.View();
    stop := AT_ONCE;
    if c.None? {
      NotFoundFacts(s, s1, repoDir, root, f, suffix, faults.unstored);
      return false, stop;
    }
    if Favourable(peer.answers, root, [f], budget, faults) {
      assert f in [f];
      ServedBelow(s1.blocks, peer.answers, c.value, root);
    }
    var r, mid, k := ReconstructFile(n, repoDir, f, c.value, peer, state, budget, suffix, faults);
    ok := !r.Failed?;
    if !ok { stop := StopOf(r, k); }
    FileFacts(s, s1, n.View(), repoDir, root, f, c.value, suffix, faults.unstored, r, mid, k);
    StepDecidesClosed(s, n.View(), repoDir, root, f, suffix, faults.unstored, ok, stop);
  }

  lemma StepDecidesClosed(s: State, s': State, repoDir: string, root: Cid, f: FileManifest, suffix: string,
      unstored: set<Cid>, ok: bool, stop: Stop)
    requires Honest(s) && FileStep(s, s', repoDir, root, f, suffix, unstored, ok, stop)
    ensures RefsRaw(s) && Closed(s)
      ==> (Closed(s') <==> ok || forall x | FirstLeaf(root, f, stop.count, x) :: !BelowMapped(s, x))
  {
    if RefsRaw(s) && Closed(s) {
      LossDecidesClosed(s, s');
      ClosedIffWhole(s);
    }
  }

  lemma NotFoundFacts(s: State, s1: State, repoDir: string, root: Cid, f: FileManifest, suffix: string,
      unstored: set<Cid>)
    requires Honest(s) && Grown(s, root, s1) && Honest(s1)
    ensures FileStep(s, s1, repoDir, root, f, suffix, unstored, false, AT_ONCE)
    ensures RefsRaw(s) && Closed(s) ==> Closed(s1)
  {
    StepDecidesClosed(s, s1, repoDir, root, f, suffix, unstored, false, AT_ONCE);
  }

  lemma FileFacts(s: State, s1: State, s': State, repoDir: string, root: Cid, f: FileManifest, c: Cid, suffix: string,
      unstored: set<Cid>, r: Outcome, mid: State, k: nat)
    requires Honest(s) && Grown(s, root, s1) && Honest(s1) && WayAdded(s, s1, root, Split(f.path))
    requires Unfailed(s, s1, unstored)
    requires WayStored(s1, root, Split(f.path), |Split(f.path)|, unstored)
    requires Lookup(root, Split(f.path)) == Some(c) && InDag(c, root)
    requires FileOutcome(s1, s', repoDir, f, c, suffix, r, mid, k)
    requires r.Rebuilt? ==> NodesStored(mid, c, unstored) && Unfailed(s1, mid, unstored)
    ensures FileStep(s, s', repoDir, root, f, suffix, unstored, !r.Failed?, if r.Failed? then StopOf(r, k) else AT_ONCE)
  {
    OutcomeKeepsHonest(s1, s', repoDir, f, c, suffix, r, mid, k);
    OutcomeFrame(s1, s', repoDir, f, c, suffix, r, mid, k);
    FilesAndRefs(s, s1, s', repoDir, f, c, suffix, r, mid, k);
    if r.Failed? {
      FailureFacts(s, s1, s', repoDir, root, f, c, suffix, r, mid, k);
    } else {
      SuccessFacts(s, s1, s', repoDir, root, f, c, suffix, unstored, r, mid, k);
    }
  }

  lemma FilesAndRefs(s: State, s1: State, s': State, repoDir: string, f: FileManifest, c: Cid, suffix: string,
      r: Outcome, mid: State, k: nat)
    requires s1.disk == s.disk && s1.refs == s.refs && FileOutcome(s1, s', repoDir, f, c, suffix, r, mid, k)
    ensures RefsOnlyInto(s, s', repoDir, f) && OtherFilesSame(s, s', repoDir, f, suffix)
    ensures OnlyBlobRefsDie(s, s', repoDir, f, suffix) && NothingWritten(s, s', repoDir, f)
  {
    OutcomeRefs(s1, s', repoDir, f, c, suffix, r, mid, k);
    OutcomeFiles(s1, s', repoDir, f, c, suffix, r, mid, k);
    if Unreferenced(s.refs, PartPath(repoDir, f.blobName, suffix)) {
      OutcomeKeepsOthersLive(s1, s', repoDir, f, c, suffix, r, mid, k);
    }
  }

  lemma OutcomeFrame(s: State, s': State, repoDir: string, f: FileManifest, c: Cid, suffix: string, r: Outcome,
      mid: State, k: nat)
    requires FileOutcome(s, s', repoDir, f, c, suffix, r, mid, k)
    ensures OnlyStores(s, s')
  {
    if !r.Cached? && !r.EmptyStored? && !(r.Failed? && EarlyStage(r.stage)) {
      ChunkFrame(mid, s', BlobPath(repoDir, f.blobName), PartPath(repoDir, f.blobName, suffix), f, Leaves(c), r, k);
    } else if r.Failed? {
      EarlyFrame(s, s', BlobPath(repoDir, f.blobName), f, c, r.stage, mid);
    }
  }

  lemma ChunkFrame(s: State, s': State, blob: Path, tmp: Path, f: FileManifest, leaves: seq<Cid>, r: Outcome, k: nat)
    requires ChunkOutcome(s, s', blob, tmp, f, leaves, r, k)
    ensures OnlyStores(s, s')
  {
    match r
    case Rebuilt =>
    case Failed(stage) =>
      if stage.Chmod? { HalfPublishedFrame(s, blob, tmp, leaves); }
      if StreamStage(stage) { RolledBackFrame(s, tmp, leaves, k); }
  }

  lemma HalfPublishedFrame(s: State, blob: Path, tmp: Path, leaves: seq<Cid>)
    ensures OnlyStores(s, HalfPublished(s, blob, tmp, leaves))
  {
  }

  lemma RolledBackFrame(s: State, tmp: Path, leaves: seq<Cid>, k: nat)
    requires k <= |leaves|
    ensures OnlyStores(s, RolledBack(s, tmp, leaves, k))
  {
  }

  lemma EarlyFrame(s: State, s': State, blob: Path, f: FileManifest, c: Cid, stage: Stage, mid: State)
    requires EarlyFailure(s, s', blob, f, c, stage, mid)
    ensures OnlyStores(s, s')
  {
  }

  lemma OutcomeRefs(s: State, s': State, repoDir: string, f: FileManifest, c: Cid, suffix: string, r: Outcome,
      mid: State, k: nat)
    requires FileOutcome(s, s', repoDir, f, c, suffix, r, mid, k)
    ensures RefsOnlyInto(s, s', repoDir, f)
  {
    if r.Failed? { FailureShrinks(s, s', repoDir, f, c, suffix, r, mid, k); }
    if r.Rebuilt? { RebuiltRefs(mid, s', BlobOf(repoDir, f), Leaves(c)); LeavesInDag(c); }
  }

  lemma OutcomeFiles(s: State, s': State, repoDir: string, f: FileManifest, c: Cid, suffix: string, r: Outcome,
      mid: State, k: nat)
    requires FileOutcome(s, s', repoDir, f, c, suffix, r, mid, k)
    ensures OtherFilesSame(s, s', repoDir, f, suffix)
  {
    if r.Failed? { FailureShrinks(s, s', repoDir, f, c, suffix, r, mid, k); }
  }

  lemma RebuiltRefs(s: State, s': State, blob: Path, cs: seq<Cid>)
    requires s'.refs == Registered(s.blocks, s.refs, blob, cs)
    ensures forall x | x in s'.refs :: (x in s.refs && s'.refs[x] == s.refs[x]) || (x in cs && s'.refs[x].path == blob)
  {
    forall x | x in s'.refs ensures (x in s.refs && s'.refs[x] == s.refs[x]) || (x in cs && s'.refs[x].path == blob) {
      RegisteredDomain(s.blocks, s.refs, blob, cs, x);
      if x !in s.refs { var i := RegisteredAt(s.blocks, s.refs, blob, cs, x); }
    }
  }

  lemma FailureFacts(s: State, s1: State, s': State, repoDir: string, root: Cid, f: FileManifest, c: Cid,
      suffix: string, r: Outcome, mid: State, k: nat)
    requires Grown(s, root, s1) && Lookup(root, Split(f.path)) == Some(c) && InDag(c, root)
    requires FileOutcome(s1, s', repoDir, f, c, suffix, r, mid, k) && r.Failed?
    ensures FileFailed(s, s', repoDir, root, f, StopOf(r, k))
  {
    FailureStores(s, s1, s', repoDir, root, f, c, suffix, r, mid, k);
    FailureBlob(s, s1, s', repoDir, f, c, suffix, r, mid, k);
  }

  lemma FailureStores(s: State, s1: State, s': State, repoDir: string, root: Cid, f: FileManifest, c: Cid,
      suffix: string, r: Outcome, mid: State, k: nat)
    requires Grown(s, root, s1) && Lookup(root, Split(f.path)) == Some(c) && InDag(c, root)
    requires FileOutcome(s1, s', repoDir, f, c, suffix, r, mid, k) && r.Failed?
    ensures forall x | Has(s', x) && !Has(s, x) :: InDag(x, root)
    ensures forall x | Has(s, x) :: !Has(s', x) <==> FirstLeaf(root, f, StopOf(r, k).count, x)
    ensures forall x | x in s.refs :: x !in s'.refs <==> FirstLeaf(root, f, StopOf(r, k).count, x)
    ensures forall x | FirstLeaf(root, f, StopOf(r, k).count, x) ::
      !HasBlob(s.disk, repoDir, f) && f.size != 0 && LeafOf(root, f, x)
  {
    FailureLosesLeaves(s1, s', repoDir, f, c, suffix, r, mid, k);
    forall x | InDag(x, c) ensures InDag(x, root) { InDagTransitive(x, c, root); }
    forall x ensures FirstLeaf(root, f, StopOf(r, k).count, x) <==> TakenBack(c, r, k, x) {
      if EarlyStage(r.stage) { assert Leaves(c)[..0] == []; }
    }
  }

  lemma FailureBlob(s: State, s1: State, s': State, repoDir: string, f: FileManifest, c: Cid, suffix: string,
      r: Outcome, mid: State, k: nat)
    requires s1.disk == s.disk && s1.refs == s.refs
    requires FileOutcome(s1, s', repoDir, f, c, suffix, r, mid, k) && r.Failed?
    ensures forall x | x in s'.refs :: x in s.refs && s'.refs[x] == s.refs[x]
    ensures if LateStage(r.stage) then BlobDone(s', repoDir, f) else SameFile(s.disk, s'.disk, BlobOf(repoDir, f))
  {
    FailureShrinks(s1, s', repoDir, f, c, suffix, r, mid, k);
    FailureWrites(s1, s', repoDir, f, c, suffix, r, mid, k);
  }

  lemma SuccessFacts(s: State, s1: State, s': State, repoDir: string, root: Cid, f: FileManifest, c: Cid,
      suffix: string, unstored: set<Cid>, r: Outcome, mid: State, k: nat)
    requires Grown(s, root, s1) && WayAdded(s, s1, root, Split(f.path)) && Unfailed(s, s1, unstored)
    requires WayStored(s1, root, Split(f.path), |Split(f.path)|, unstored) && Lookup(root, Split(f.path)) == Some(c)
    requires FileOutcome(s1, s', repoDir, f, c, suffix, r, mid, k) && !r.Failed?
    requires r.Rebuilt? ==> NodesStored(mid, c, unstored) && Unfailed(s1, mid, unstored)
    ensures FileAdded(s, s', repoDir, root, f, unstored)
  {
    OutcomeGains(s1, s', repoDir, f, c, suffix, r, mid, k, unstored);
    OutcomeKeepsRefs(s1, s', repoDir, f, c, suffix, r, mid, k);
    if r.Rebuilt? { RebuiltHasBlob(s1, s', repoDir, f, c, suffix, mid, k); }
    forall x ensures Has(s1, x) <==> Has(s, x) || (OnWay(root, Split(f.path), x) && x !in unstored) {
      if OnWay(root, Split(f.path), x) && x !in unstored {
        var i :| 0 <= i <= |Split(f.path)| && Lookup(root, Split(f.path)[..i]) == Some(x);
        assert NodeKept(s1, x, unstored);
      }
    }
  }

  lemma ServedBelow(blocks: Blocks, answers: (nat, Cid) -> Answer, c: Cid, root: Cid)
    requires Served(answers, root) && InDag(c, root)
    ensures Resolvable(blocks, answers, c) && AllHad(answers, Leaves(c))
  {
    forall x | InDag(x, c) ensures Supplies(answers, x) { InDagTransitive(x, c, root); }
    LeavesInDag(c);
  }
}
