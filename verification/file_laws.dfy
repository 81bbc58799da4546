/** What reconstructing one file keeps, whatever the peer sends and wherever it stops. */
module FileLaws {
  import opened Content
  import opened Graph
  import opened Store
  import opened References
  import opened Remote
  import opened Reconstruct

  /** Nothing references the temporary file, and the blob's own path is referenced only if
      its content is already the one the manifest describes. */
  ghost predicate BlobFree(s: State, repoDir: string, f: FileManifest, suffix: string) {
    && Unreferenced(s.refs, PartPath(repoDir, f.blobName, suffix))
    && (HasBlob(s.disk, repoDir, f) || Unreferenced(s.refs, BlobPath(repoDir, f.blobName)))
  }

  ghost predicate Unreferenced(refs: Refs, p: Path) {
    forall c | c in refs :: refs[c].path != p
  }

  /** A download that fails takes CIDs away at most, and touches no file but its own two. */
  lemma FailedChunks(s: State, s': State, blob: Path, tmp: Path, f: FileManifest, leaves: seq<Cid>, r: Outcome, k: nat)
    requires ChunkOutcome(s, s', blob, tmp, f, leaves, r, k) && r.Failed?
    ensures OnlyShrunk(s, s') && forall p | p != blob && p != tmp :: SameFile(s.disk, s'.disk, p)
  {
    match r.stage
    case Create =>
    case Chmod => HalfPublishedFacts(s, blob, tmp, leaves);
    case _ => RolledBackFacts(s, tmp, leaves, k);
  }

  lemma RolledBackFacts(s: State, tmp: Path, leaves: seq<Cid>, k: nat)
    requires k <= |leaves|
    ensures OnlyShrunk(s, RolledBack(s, tmp, leaves, k))
    ensures forall p | p != tmp :: SameFile(s.disk, RolledBack(s, tmp, leaves, k).disk, p)
  {
  }

  lemma HalfPublishedFacts(s: State, blob: Path, tmp: Path, leaves: seq<Cid>)
    ensures OnlyShrunk(s, HalfPublished(s, blob, tmp, leaves))
    ensures forall p | p != blob && p != tmp :: SameFile(s.disk, HalfPublished(s, blob, tmp, leaves).disk, p)
    ensures var disk := HalfPublished(s, blob, tmp, leaves).disk; blob in disk && disk[blob] == Payload(leaves)
  {
  }

  ghost predicate OnlyShrunk(s: State, s': State) {
    && (forall x | x in s'.blocks :: x in s.blocks && s'.blocks[x] == s.blocks[x])
    && (forall x | x in s'.refs :: x in s.refs && s'.refs[x] == s.refs[x])
  }

  lemma OutcomeKeepsHonest(s: State, s': State, repoDir: string, f: FileManifest, c: Cid, suffix: string, r: Outcome,
      mid: State, k: nat)
    requires Honest(s) && FileOutcome(s, s', repoDir, f, c, suffix, r, mid, k)
    ensures Honest(s')
  {
    if r.Failed? { FailureShrinks(s, s', repoDir, f, c, suffix, r, mid, k); }
  }

  /** Apart from fetched nodes nothing was added, and no file but the blob and its temporary
      file was touched. */
  ghost predicate AtMostFetched(s: State, s': State, blob: Path, tmp: Path) {
    && (forall x | x in s'.blocks ::
      (x in s.blocks && s'.blocks[x] == s.blocks[x]) || (s'.blocks[x] == x.content && x !in s.refs))
    && (forall x | x in s'.refs :: x in s.refs && s'.refs[x] == s.refs[x])
    && (forall p | p != blob && p != tmp :: SameFile(s.disk, s'.disk, p))
  }

  /** So it is after every failure. */
  lemma FailureShrinks(s: State, s': State, repoDir: string, f: FileManifest, c: Cid, suffix: string, r: Outcome,
      mid: State, k: nat)
    requires FileOutcome(s, s', repoDir, f, c, suffix, r, mid, k) && r.Failed?
    ensures AtMostFetched(s, s', BlobPath(repoDir, f.blobName), PartPath(repoDir, f.blobName, suffix))
  {
    var blob, tmp := BlobPath(repoDir, f.blobName), PartPath(repoDir, f.blobName, suffix);
    if EarlyStage(r.stage) {
      EarlyShrinks(s, s', blob, tmp, f, c, r.stage, mid);
    } else {
      FailedChunks(mid, s', blob, tmp, f, Leaves(c), r, k);
      ShrunkAfterGrown(s, c, mid, s', blob, tmp);
    }
  }

  lemma EarlyShrinks(s: State, s': State, blob: Path, tmp: Path, f: FileManifest, c: Cid, stage: Stage, mid: State)
    requires EarlyFailure(s, s', blob, f, c, stage, mid)
    ensures AtMostFetched(s, s', blob, tmp)
  {
  }

  lemma ShrunkAfterGrown(s: State, c: Cid, mid: State, s': State, blob: Path, tmp: Path)
    requires Grown(s, c, mid) && OnlyShrunk(mid, s')
    requires forall p | p != blob && p != tmp :: SameFile(mid.disk, s'.disk, p)
    ensures AtMostFetched(s, s', blob, tmp)
  {
  }

  /** A reference that is live, or else was there before and points into blob or was dead. */
  ghost predicate LiveOrOld(s: State, s': State, blob: Path, x: Cid)
    requires x in s'.refs
  {
    RefLive(s'.disk, x, s'.refs[x]) ||
    (x in s.refs && s'.refs[x] == s.refs[x] && (s.refs[x].path == blob || !RefLive(s.disk, x, s.refs[x])))
  }

  /** Whatever the outcome and whatever was referenced, new references are live and only
      references into the blob can die. */
  lemma OutcomeKeepsOthersLive(s: State, s': State, repoDir: string, f: FileManifest, c: Cid, suffix: string,
      r: Outcome, mid: State, k: nat)
    requires FileOutcome(s, s', repoDir, f, c, suffix, r, mid, k)
    requires Unreferenced(s.refs, PartPath(repoDir, f.blobName, suffix))
    ensures forall x | x in s'.refs :: LiveOrOld(s, s', BlobPath(repoDir, f.blobName), x)
  {
    var blob, tmp := BlobPath(repoDir, f.blobName), PartPath(repoDir, f.blobName, suffix);
    if r.Rebuilt? {
      LeavesInDag(c);
      forall x | x in s'.refs ensures LiveOrOld(s, s', blob, x) {
        RegisteredDomain(mid.blocks, mid.refs, blob, Leaves(c), x);
        if x !in s.refs { NewRefsLive(mid.blocks, mid.refs, blob, Leaves(c), s'.disk, x); }
      }
    } else if r.Failed? {
      FailureShrinks(s, s', repoDir, f, c, suffix, r, mid, k);
      forall x | x in s'.refs
        ensures LiveOrOld(s, s', blob, x)
      {
        assert SameFile(s.disk, s'.disk, s.refs[x].path) || s.refs[x].path == blob;
      }
    }
  }

  /** So live references stay live exactly when each one into the blob's path that is left reads
      its own bytes afterwards. */
  lemma OutcomeKeepsRefsLiveIff(s: State, s': State, repoDir: string, f: FileManifest, c: Cid, suffix: string,
      r: Outcome, mid: State, k: nat)
    requires RefsLive(s) && FileOutcome(s, s', repoDir, f, c, suffix, r, mid, k)
    requires Unreferenced(s.refs, PartPath(repoDir, f.blobName, suffix))
    ensures RefsLive(s') <==>
      forall x | x in s.refs && x in s'.refs && s.refs[x].path == BlobPath(repoDir, f.blobName) ::
        RefLive(s'.disk, x, s.refs[x])
  {
    OutcomeKeepsOthersLive(s, s', repoDir, f, c, suffix, r, mid, k);
    forall x | x in s.refs && x in s'.refs ensures s'.refs[x] == s.refs[x] {
      if r.Rebuilt? { RegisteredDomain(mid.blocks, mid.refs, BlobPath(repoDir, f.blobName), Leaves(c), x); }
      if r.Failed? { FailureShrinks(s, s', repoDir, f, c, suffix, r, mid, k); }
    }
  }

  /** A failure that is answered by a rollback, or comes before anything was written, keeps live
      references live whatever they point into. */
  lemma RollbackKeepsRefsLive(s: State, s': State, repoDir: string, f: FileManifest, c: Cid, suffix: string,
      r: Outcome, mid: State, k: nat)
    requires RefsLive(s) && FileOutcome(s, s', repoDir, f, c, suffix, r, mid, k)
    requires r.Failed? && r.stage != EmptyLeaf && r.stage != Chmod
    requires Unreferenced(s.refs, PartPath(repoDir, f.blobName, suffix))
    ensures RefsLive(s')
  {
    FailureShrinks(s, s', repoDir, f, c, suffix, r, mid, k);
    FailureWrites(s, s', repoDir, f, c, suffix, r, mid, k);
    ReferencedStayLive(s, s', PartPath(repoDir, f.blobName, suffix));
  }

  lemma ReferencedStayLive(s: State, s': State, tmp: Path)
    requires RefsLive(s) && Unreferenced(s.refs, tmp)
    requires forall x | x in s'.refs :: x in s.refs && s'.refs[x] == s.refs[x]
    requires forall p | p != tmp :: SameFile(s.disk, s'.disk, p)
    ensures RefsLive(s')
  {
    forall x | x in s'.refs ensures RefLive(s'.disk, x, s'.refs[x]) {
      assert SameFile(s.disk, s'.disk, s.refs[x].path);
    }
  }

  /** Live references stay live through every outcome, failures included, when the blob's
      path is not referenced for other content. */
  lemma OutcomeKeepsRefsLive(s: State, s': State, repoDir: string, f: FileManifest, c: Cid, suffix: string,
      r: Outcome, mid: State, k: nat)
    requires RefsLive(s) && BlobFree(s, repoDir, f, suffix) && FileOutcome(s, s', repoDir, f, c, suffix, r, mid, k)
    ensures RefsLive(s')
  {
    OutcomeKeepsRefsLiveIff(s, s', repoDir, f, c, suffix, r, mid, k);
  }

  /** Publishing over a referenced blob keeps references live exactly when each one into it
      reads its own bytes in the new content as well. */
  lemma RebuiltKeepsRefsLiveIff(s: State, s': State, repoDir: string, f: FileManifest, c: Cid, suffix: string,
      mid: State, k: nat)
    requires RefsLive(s) && FileOutcome(s, s', repoDir, f, c, suffix, Rebuilt, mid, k)
    requires Unreferenced(s.refs, PartPath(repoDir, f.blobName, suffix))
    ensures RefsLive(s') <==>
      forall x | x in s.refs && s.refs[x].path == BlobPath(repoDir, f.blobName) ::
        ReadsAs(Payload(Leaves(c)), s.refs[x], x)
  {
    OutcomeKeepsRefsLiveIff(s, s', repoDir, f, c, suffix, Rebuilt, mid, k);
    forall x | x in s.refs ensures x in s'.refs {
      RegisteredDomain(mid.blocks, mid.refs, BlobPath(repoDir, f.blobName), Leaves(c), x);
    }
  }

  /** Within the bytes, the range of the reference holds the content of x. */
  predicate ReadsAs(data: Bytes, r: Ref, x: Cid) {
    r.offset + r.size <= |data| && Hash(Raw(data[r.offset..r.offset + r.size])) == x
  }

  /** A failed download leaves the final blob, and every other file, as it was, except that
      an empty file is emptied before it is checked and that a failure after the rename
      comes too late. */
  lemma FailureLeavesFiles(s: State, s': State, repoDir: string, f: FileManifest, c: Cid, suffix: string, r: Outcome,
      mid: State, k: nat)
    requires FileOutcome(s, s', repoDir, f, c, suffix, r, mid, k) && r.Failed?
    requires r.stage != EmptyLeaf && r.stage != Chmod
    requires PartPath(repoDir, f.blobName, suffix) !in s.disk
    ensures s'.disk == s.disk
  {
  }

  /** Once rebuilt, the blob has the manifest's size and hash. */
  lemma RebuiltHasBlob(s: State, s': State, repoDir: string, f: FileManifest, c: Cid, suffix: string, mid: State,
      k: nat)
    requires FileOutcome(s, s', repoDir, f, c, suffix, Rebuilt, mid, k)
    ensures HasBlob(s'.disk, repoDir, f) && s'.disk[BlobPath(repoDir, f.blobName)] == Payload(Leaves(c))
  {
  }

  /** For an empty file the code checks the fetched leaf, not the blob: the blob has the
      manifest's hash exactly when the leaf is the empty one. */
  lemma EmptyBlobMatchesIff(s: State, s': State, repoDir: string, f: FileManifest, c: Cid, suffix: string, mid: State,
      k: nat)
    requires FileOutcome(s, s', repoDir, f, c, suffix, EmptyStored, mid, k)
    ensures HasBlob(s'.disk, repoDir, f) <==> c == Hash(Raw([]))
  {
  }

  /** What rebuilding the file with root c puts into the stores: the lone leaf of an empty file,
      else the leaves and those nodes whose storing does not fail. */
  ghost predicate FileGain(f: FileManifest, c: Cid, unstored: set<Cid>, x: Cid) {
    if f.size == 0 then x == c else InDag(x, c) && (IsRaw(x) || x !in unstored)
  }

  /** Success takes nothing away and adds exactly that; nothing when the file was there. */
  lemma OutcomeGains(s: State, s': State, repoDir: string, f: FileManifest, c: Cid, suffix: string, r: Outcome,
      mid: State, k: nat, unstored: set<Cid>)
    requires FileOutcome(s, s', repoDir, f, c, suffix, r, mid, k) && !r.Failed?
    requires r.Rebuilt? ==> NodesStored(mid, c, unstored) && Unfailed(s, mid, unstored)
    ensures forall x :: Has(s', x) <==> Has(s, x) || (!HasBlob(s.disk, repoDir, f) && FileGain(f, c, unstored, x))
  {
    if r.Rebuilt? {
      LeavesInDag(c);
      forall x ensures Has(s', x) <==> Has(s, x) || FileGain(f, c, unstored, x) {
        RegisteredDomain(mid.blocks, mid.refs, BlobPath(repoDir, f.blobName), Leaves(c), x);
        if InDag(x, c) && IsRaw(x) { RawInDagIsLeaf(x, c); }
      }
    }
  }

  /** Success leaves every reference as it was. */
  lemma OutcomeKeepsRefs(s: State, s': State, repoDir: string, f: FileManifest, c: Cid, suffix: string, r: Outcome,
      mid: State, k: nat)
    requires FileOutcome(s, s', repoDir, f, c, suffix, r, mid, k) && !r.Failed?
    ensures forall x | x in s.refs :: x in s'.refs && s'.refs[x] == s.refs[x]
  {
    if r.Rebuilt? {
      forall x | x in s.refs ensures x in s'.refs && s'.refs[x] == s.refs[x] {
        RegisteredDomain(mid.blocks, mid.refs, BlobPath(repoDir, f.blobName), Leaves(c), x);
      }
    }
  }

  /** The chunks that a failure takes back: as many as were registered, none before the first is
      asked for. */
  ghost predicate TakenBack(c: Cid, r: Outcome, k: nat, x: Cid)
    requires r.Failed?
  {
    !EarlyStage(r.stage) && k <= |Leaves(c)| && x in Leaves(c)[..k]
  }

  /** The stages that fail once the blob has been written. */
  predicate LateStage(s: Stage) {
    s.EmptyLeaf? || s.Chmod?
  }

  /** Failure adds nothing but nodes of the DAG, and takes away exactly the chunks it registered,
      whoever had them first. */
  lemma FailureLosesLeaves(s: State, s': State, repoDir: string, f: FileManifest, c: Cid, suffix: string, r: Outcome,
      mid: State, k: nat)
    requires FileOutcome(s, s', repoDir, f, c, suffix, r, mid, k) && r.Failed?
    ensures forall x | Has(s', x) && !Has(s, x) :: InDag(x, c)
    ensures forall x | Has(s, x) :: !Has(s', x) <==> TakenBack(c, r, k, x)
    ensures forall x | x in s.refs :: x !in s'.refs <==> TakenBack(c, r, k, x)
    ensures forall x | TakenBack(c, r, k, x) :: !HasBlob(s.disk, repoDir, f) && f.size != 0 && IsRaw(x)
  {
    LeavesInDag(c);
    if !EarlyStage(r.stage) { LateFailureLoses(mid, s', repoDir, f, c, suffix, r, k); }
  }

  lemma LateFailureLoses(mid: State, s': State, repoDir: string, f: FileManifest, c: Cid, suffix: string, r: Outcome,
      k: nat)
    requires ChunkOutcome(mid, s', BlobPath(repoDir, f.blobName), PartPath(repoDir, f.blobName, suffix), f, Leaves(c),
        r, k)
    requires r.Failed?
    ensures k <= |Leaves(c)| && forall x :: Has(s', x) <==> Has(mid, x) && x !in Leaves(c)[..k]
    ensures forall x :: x in s'.refs <==> x in mid.refs && x !in Leaves(c)[..k]
  {
    assert Leaves(c)[..|Leaves(c)|] == Leaves(c);
    match r.stage
    case Create => assert Leaves(c)[..0] == [];
    case Chmod =>
      HalfPublishedStores(mid, BlobPath(repoDir, f.blobName), PartPath(repoDir, f.blobName, suffix), Leaves(c));
    case _ => RolledBackStores(mid, PartPath(repoDir, f.blobName, suffix), Leaves(c), k);
  }

  lemma HalfPublishedStores(s: State, blob: Path, tmp: Path, leaves: seq<Cid>)
    ensures var s' := HalfPublished(s, blob, tmp, leaves);
      && (forall x :: Has(s', x) <==> Has(s, x) && x !in leaves)
      && forall x :: x in s'.refs <==> x in s.refs && x !in leaves
  {
  }

  lemma RolledBackStores(s: State, tmp: Path, leaves: seq<Cid>, k: nat)
    requires k <= |leaves|
    ensures var s' := RolledBack(s, tmp, leaves, k);
      && (forall x :: Has(s', x) <==> Has(s, x) && x !in leaves[..k])
      && forall x :: x in s'.refs <==> x in s.refs && x !in leaves[..k]
  {
  }

  /** After a late failure the blob is as a success leaves it; before that it is not touched. */
  lemma FailureWrites(s: State, s': State, repoDir: string, f: FileManifest, c: Cid, suffix: string, r: Outcome,
      mid: State, k: nat)
    requires FileOutcome(s, s', repoDir, f, c, suffix, r, mid, k) && r.Failed?
    ensures var blob := BlobPath(repoDir, f.blobName);
      if r.stage.EmptyLeaf? then f.size == 0 && blob in s'.disk && s'.disk[blob] == []
      else if r.stage.Chmod? then HasBlob(s'.disk, repoDir, f) && f.size != 0
      else SameFile(s.disk, s'.disk, blob)
  {
    PartIsNotBlob(repoDir, f.blobName, suffix);
    if EarlyStage(r.stage) {
      EarlyWrites(s, s', BlobPath(repoDir, f.blobName), f, c, r.stage, mid);
    } else {
      ChunkWrites(mid, s', repoDir, f, Leaves(c), BlobPath(repoDir, f.blobName), PartPath(repoDir, f.blobName, suffix),
        r, k);
    }
  }

  lemma EarlyWrites(s: State, s': State, blob: Path, f: FileManifest, c: Cid, stage: Stage, mid: State)
    requires EarlyFailure(s, s', blob, f, c, stage, mid)
    ensures if stage.EmptyLeaf? then f.size == 0 && blob in s'.disk && s'.disk[blob] == []
      else SameFile(s.disk, s'.disk, blob)
  {
  }

  lemma ChunkWrites(s: State, s': State, repoDir: string, f: FileManifest, leaves: seq<Cid>, blob: Path, tmp: Path,
      r: Outcome, k: nat)
    requires ChunkOutcome(s, s', blob, tmp, f, leaves, r, k) && r.Failed?
    requires blob == BlobPath(repoDir, f.blobName) && blob != tmp
    ensures if r.stage.Chmod? then HasBlob(s'.disk, repoDir, f) else SameFile(s.disk, s'.disk, blob)
  {
    match r.stage
    case Create =>
    case Chmod => HalfPublishedFacts(s, blob, tmp, leaves);
    case _ => RolledBackFacts(s, tmp, leaves, k);
  }

  /** The stores stay disjoint, except that the leaf of an empty file is put into the block
      store without asking whether it is referenced. */
  lemma OutcomeKeepsDisjointIff(s: State, s': State, repoDir: string, f: FileManifest, c: Cid, suffix: string,
      r: Outcome, mid: State, k: nat)
    requires Disjoint(s) && FileOutcome(s, s', repoDir, f, c, suffix, r, mid, k)
    ensures Disjoint(s') <==> (r.EmptyStored? ==> c !in s.refs)
  {
    if r.Rebuilt? {
      forall x ensures x in s'.refs <==> x in mid.refs || (x in Leaves(c) && x !in mid.blocks) {
        RegisteredDomain(mid.blocks, mid.refs, BlobPath(repoDir, f.blobName), Leaves(c), x);
      }
    } else if r.EmptyStored? {
      assert c in s'.blocks;
    } else if r.Failed? {
      FailureShrinks(s, s', repoDir, f, c, suffix, r, mid, k);
    }
  }

  /** A rollback keeps mapped revisions whole exactly when no chunk it deletes belongs to
      one: it does not ask who registered the chunk first. */
  lemma RollbackKeepsClosedIff(s: State, s': State, tmp: Path, cs: seq<Cid>, k: nat)
    requires Honest(s) && Closed(s) && k <= |cs| && s' == RolledBack(s, tmp, cs, k)
    requires forall c | c in cs :: IsRaw(c)
    ensures Closed(s') <==> forall m, c | m in s.mapping && s.mapping[m].actual.Some? && c in cs[..k] ::
      !Reaches(s.blocks, s.mapping[m].actual.value, c)
  {
    forall m, x | m in s.mapping && s.mapping[m].actual.Some?
      ensures Reaches(s'.blocks, s.mapping[m].actual.value, x) <==> Reaches(s.blocks, s.mapping[m].actual.value, x)
    {
      RawRemovalKeepsReach(s, s', cs[..k], s.mapping[m].actual.value, x);
    }
    if Closed(s') {
      forall m, c | m in s.mapping && s.mapping[m].actual.Some? && c in cs[..k]
        ensures !Reaches(s.blocks, s.mapping[m].actual.value, c)
      {
        assert !Has(s', c);
      }
    }
  }

  /** Raw blocks have no links, so removing some changes nothing that is reachable. */
  lemma RawRemovalKeepsReach(s: State, s': State, cs: seq<Cid>, a: Cid, x: Cid)
    requires Honest(s) && s'.blocks == s.blocks - CidSet(cs) && forall c | c in cs :: IsRaw(c)
    ensures Reaches(s'.blocks, a, x) <==> Reaches(s.blocks, a, x)
  {
    forall y ensures SameLinks(s'.blocks, s.blocks, y) {
      if y in s.blocks { assert Hash(s.blocks[y]) == y; }
    }
    ReachesSameEdges(s'.blocks, s.blocks, a, x);
  }
}
