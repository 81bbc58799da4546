/** What eviction keeps, what a whole list of evictions removes, and what depends on
    the order of that list. */
module EvictLaws {
  import opened Content
  import opened Dummy
  import opened Graph
  import opened Names
  import opened Store
  import opened Evict

  lemma SurvivorNotDoomed(s: State, e: Entry, k: string, x: Cid)
    requires ReachedBy(s, k, x) && k != e.commit
    ensures !Doomed(s, e, x)
  {
  }

  /** However far an eviction gets, every other mapped revision reaches the same CIDs. */
  lemma SurvivorReachesSame(s: State, e: Entry, s': State, k: string, x: Cid)
    requires PartlyEvicted(s, e, s') && k != e.commit
    ensures ReachedBy(s', k, x) <==> ReachedBy(s, k, x)
  {
    if k in s.mapping && s.mapping[k].actual.Some? {
      var root := s.mapping[k].actual.value;
      forall y | Reaches(s.blocks, root, y)
        ensures (y in s.blocks <==> y in s'.blocks) && (y in s.blocks ==> s.blocks[y] == s'.blocks[y])
      {
        SurvivorNotDoomed(s, e, k, y);
      }
      ReachesStable(s.blocks, s'.blocks, root, x);
    }
  }

  /** Each CID another revision reaches keeps its block, its reference and the bytes of the
      file that reference points into, unless that file is the evicted snapshot's own. */
  lemma SurvivorStoredSame(s: State, e: Entry, s': State, k: string, x: Cid)
    requires PartlyEvicted(s, e, s') && k != e.commit && ReachedBy(s, k, x)
    ensures (x in s'.blocks <==> x in s.blocks) && (x in s.blocks ==> s'.blocks[x] == s.blocks[x])
    ensures (x in s'.refs <==> x in s.refs) && (x in s.refs ==> s'.refs[x] == s.refs[x])
    ensures x in s.refs && !InSnapshot(e, s.refs[x].path) ==> SameFile(s.disk, s'.disk, s.refs[x].path)
  {
  }

  /** So the node serves every such CID as it did before. */
  lemma SurvivorServedSame(s: State, e: Entry, s': State, k: string, x: Cid)
    requires PartlyEvicted(s, e, s') && k != e.commit && ReachedBy(s, k, x)
    requires x in s.refs ==> !InSnapshot(e, s.refs[x].path)
    ensures Serve(s', x) == Serve(s, x)
  {
    SurvivorStoredSame(s, e, s', k, x);
    SameStoredSameServed(s, s', x);
  }

  lemma SameStoredSameServed(s: State, s': State, x: Cid)
    requires (x in s'.blocks <==> x in s.blocks) && (x in s.blocks ==> s'.blocks[x] == s.blocks[x])
    requires (x in s'.refs <==> x in s.refs) && (x in s.refs ==> s'.refs[x] == s.refs[x])
    requires x in s.refs ==> SameFile(s.disk, s'.disk, s.refs[x].path)
    ensures Serve(s', x) == Serve(s, x)
  {
  }

  lemma EvictionIsPartly(s: State, e: Entry)
    ensures PartlyEvicted(s, e, Evicted(s, e))
  {
  }

  /** What a completed eviction leaves of the revision: no mapping entry, no file or link in its
      snapshot, no tree record, and no refs/main that names it. */
  lemma RevisionIsGone(s: State, e: Entry)
    ensures var s' := Evicted(s, e);
      && e.commit !in s'.mapping && (EntryDir(e), e.commit) !in s'.trees
      && ((EntryDir(e), "main") in s'.heads && ValidCommit(e.commit) ==> s'.heads[(EntryDir(e), "main")] != e.commit)
      && forall p | Under(EntryDir(e), e.commit, p) :: p !in s'.disk && p !in s'.links
  {
  }

  /** And of everything else: all that belongs to another revision stays, save blobs that the
      evicted one lists. */
  lemma OtherRevisionsStay(s: State, e: Entry)
    ensures var s' := Evicted(s, e);
      && (forall k | k != e.commit ::
        (k in s'.mapping <==> k in s.mapping) && (k in s.mapping ==> s'.mapping[k] == s.mapping[k]))
      && (forall d, c | (d, c) != (EntryDir(e), e.commit) ::
        (d, c) in s.trees ==> (d, c) in s'.trees && s'.trees[(d, c)] == s.trees[(d, c)])
      && (forall h | h in s.heads && (s.heads[h] != e.commit || h != (EntryDir(e), "main")) ::
        h in s'.heads && s'.heads[h] == s.heads[h])
      && (forall p | p in s.links && !Under(EntryDir(e), e.commit, p) :: p in s'.links && s'.links[p] == s.links[p])
      && (forall p | !Under(EntryDir(e), e.commit, p) && !ListsBlob(e, p) :: SameFile(s.disk, s'.disk, p))
  {
  }

  /** A completed eviction keeps the other revisions whole, whatever the stores hold. */
  lemma EvictKeepsClosed(s: State, e: Entry)
    requires Closed(s)
    ensures Closed(Evicted(s, e))
  {
    var s' := Evicted(s, e);
    EvictionIsPartly(s, e);
    forall k | k in s'.mapping && s'.mapping[k].actual.Some?
      ensures Servable(s', s'.mapping[k].actual.value)
    {
      forall x | Reaches(s'.blocks, s'.mapping[k].actual.value, x) ensures Has(s', x) {
        assert ReachedBy(s', k, x);
        SurvivorReachesSame(s, e, s', k, x);
        SurvivorStoredSame(s, e, s', k, x);
        assert Has(s, x);
      }
    }
  }

  /** However far an eviction gets, mapped revisions stay whole exactly when the evicted one is
      unmapped or all it reaches is still there: one that stops after it has swept something
      leaves the revision mapped, and broken. */
  lemma EvictKeepsClosedIff(s: State, e: Entry, s': State)
    requires PartlyEvicted(s, e, s') && Closed(s) && Coherent(s)
    ensures Closed(s') <==> e.commit !in s'.mapping || forall c | ReachedBy(s, e.commit, c) :: Has(s', c)
  {
    ClosedIffWhole(s);
    ClosedIffWhole(s');
    forall k, x | k in s.mapping && s.mapping[k].actual.Some?
      ensures InDag(x, s.mapping[k].actual.value) <==> ReachedBy(s, k, x)
    {
      DagIffReached(s, s.mapping[k].actual.value, x);
    }
    forall k, x | ReachedBy(s, k, x) && k != e.commit ensures Has(s', x) {
      SurvivorStoredSame(s, e, s', k, x);
      assert BelowMapped(s, x);
    }
    if Closed(s') && e.commit in s'.mapping {
      forall c | ReachedBy(s, e.commit, c) ensures Has(s', c) {
        assert s'.mapping[e.commit] == s.mapping[e.commit];
        assert BelowMapped(s', c);
      }
    }
  }

  lemma StoppedIsPartly(s: State, e: Entry, swept: set<Cid>, s': State)
    requires Stopped(s, e, swept, s')
    ensures PartlyEvicted(s, e, s')
  {
  }

  /** An eviction that stops keeps mapped revisions whole exactly when whatever it has swept of its
      own revision was held by both stores: then only the reference is gone. */
  lemma StoppedKeepsClosedIff(s: State, e: Entry, swept: set<Cid>, s': State)
    requires Stopped(s, e, swept, s') && Closed(s) && Coherent(s)
    ensures Closed(s') <==> forall c | c in swept && ReachedBy(s, e.commit, c) :: c in s.refs && c in s.blocks
  {
    StoppedIsPartly(s, e, swept, s');
    EvictKeepsClosedIff(s, e, s');
    if e.commit in s.mapping {
      forall c | ReachedBy(s, e.commit, c) ensures Has(s, c) {}
    }
  }

  lemma DagIffReached(s: State, root: Cid, x: Cid)
    requires Coherent(s) && Servable(s, root)
    ensures InDag(x, root) <==> Reaches(s.blocks, root, x)
  {
    ReachesSelf(s.blocks, root);
    if InDag(x, root) { DagIsReached(s, root, root, x); }
    if Reaches(s.blocks, root, x) { ReachedIsInDag(s, root, x); }
  }

  /** References stay live exactly when none that remains points into the evicted
      snapshot directory, which is removed without looking at the references. */
  lemma EvictKeepsRefsLiveIff(s: State, e: Entry)
    requires RefsLive(s)
    ensures RefsLive(Evicted(s, e)) <==>
      forall c | c in s.refs && InSnapshot(e, s.refs[c].path) :: Doomed(s, e, c)
  {
    var s' := Evicted(s, e);
    if RefsLive(s') {
      forall c | c in s.refs && InSnapshot(e, s.refs[c].path) ensures Doomed(s, e, c) {
        assert c in s'.refs ==> RefLive(s'.disk, c, s'.refs[c]);
      }
    }
    if forall c | c in s.refs && InSnapshot(e, s.refs[c].path) :: Doomed(s, e, c) {
      forall c | c in s'.refs ensures RefLive(s'.disk, c, s'.refs[c]) {
        assert RefLive(s.disk, c, s.refs[c]);
        assert Referenced(SweptRefs(s, e), s.refs[c].path);
      }
    }
  }

  /** A blob of a surviving revision is removed from under it exactly when the evicted
      revision lists it too and no remaining reference points into it: other manifests
      are not consulted. */
  lemma SharedBlobLostIff(s: State, e: Entry, p: Path)
    requires p.BlobPath? && p in s.disk
    ensures p !in Evicted(s, e).disk
      <==> ListsBlob(e, p) && forall c | c in s.refs && s.refs[c].path == p :: Doomed(s, e, c)
  {
    var r := SweptRefs(s, e);
    if c :| c in s.refs && s.refs[c].path == p && !Doomed(s, e, c) { assert c in r && r[c].path == p; }
    if Referenced(r, p) { var c :| c in r && r[c].path == p; assert c in s.refs && !Doomed(s, e, c); }
  }

  // ---- Lists of evictions ----

  /** The entries are mapped, decodable and each listed once. */
  ghost predicate Evictable(s: State, es: seq<Entry>) {
    && Filed(s)
    && (forall i | 0 <= i < |es| :: es[i].commit in s.mapping && s.mapping[es[i].commit] == es[i] && es[i].actual.Some?)
    && (forall i, j | 0 <= i < j < |es| :: es[i].commit != es[j].commit)
  }

  /** Reached, in s, from a commit of the set and from no other mapped one. */
  ghost predicate Garbage(s: State, commits: set<string>, c: Cid) {
    ReachedFrom(s, commits, c) && !ReachedFrom(s, s.mapping.Keys - commits, c)
  }

  ghost function GarbageSet(s: State, commits: set<string>): iset<Cid> {
    iset c | Garbage(s, commits, c)
  }

  /** Reachability from revisions that stay mapped is the same before and after. */
  lemma ReachedFromStable(s: State, e: Entry, commits: set<string>, c: Cid)
    requires e.commit !in commits
    ensures ReachedFrom(Evicted(s, e), commits, c) <==> ReachedFrom(s, commits, c)
  {
    EvictionIsPartly(s, e);
    forall k | k in commits ensures ReachedBy(Evicted(s, e), k, c) <==> ReachedBy(s, k, c) {
      SurvivorReachesSame(s, e, Evicted(s, e), k, c);
    }
  }

  lemma CommitsSplit(es: seq<Entry>)
    requires es != [] && forall i, j | 0 <= i < j < |es| :: es[i].commit != es[j].commit
    ensures Commits(es) == {es[0].commit} + Commits(es[1..]) && es[0].commit !in Commits(es[1..])
  {
  }

  lemma GarbageSplits(s: State, e: Entry, rest: set<string>)
    requires e.commit in s.mapping && s.mapping[e.commit] == e && rest <= s.mapping.Keys && e.commit !in rest
    ensures GarbageSet(s, {e.commit} + rest) == DoomedSet(s, e) + GarbageSet(Evicted(s, e), rest)
  {
    var s1 := Evicted(s, e);
    var all := {e.commit} + rest;
    var stay := s.mapping.Keys - all;
    assert s1.mapping.Keys - rest == stay;
    assert rest + stay == Others(s, e.commit);
    assert rest + {e.commit} == all;
    forall c ensures c in GarbageSet(s, all) <==> c in DoomedSet(s, e) || c in GarbageSet(s1, rest) {
      ReachedFromOneMore(s, rest, e.commit);
      ReachedFromUnion(s, rest, stay, c);
      ReachedFromStable(s, e, rest, c);
      ReachedFromStable(s, e, stay, c);
    }
  }

  lemma EvictableRest(s: State, es: seq<Entry>)
    requires es != [] && Evictable(s, es)
    ensures Evictable(Evicted(s, es[0]), es[1..]) && Commits(es[1..]) <= s.mapping.Keys
  {
  }

  lemma EvictedStores(s: State, e: Entry)
    requires Disjoint(s)
    ensures var s1 := Evicted(s, e);
      && s1.refs == Without(s.refs, DoomedSet(s, e)) && s1.blocks == Without(s.blocks, DoomedSet(s, e))
      && s1.mapping == s.mapping - {e.commit} && Disjoint(s1)
  {
  }

  /** Evicting a list of revisions removes from both stores exactly what those revisions
      reach and no surviving one does, all measured in the initial state, provided the
      stores start disjoint. */
  lemma {:induction false} EvictAllRemovesGarbage(s: State, es: seq<Entry>)
    requires Evictable(s, es) && Disjoint(s)
    ensures EvictedAll(s, es).refs == Without(s.refs, GarbageSet(s, Commits(es)))
    ensures EvictedAll(s, es).blocks == Without(s.blocks, GarbageSet(s, Commits(es)))
    ensures EvictedAll(s, es).mapping == s.mapping - Commits(es)
    decreases |es|
  {
    if es == [] {
      NothingIsGarbage(s);
    } else {
      var s1 := Evicted(s, es[0]);
      EvictableRest(s, es);
      EvictedStores(s, es[0]);
      EvictAllRemovesGarbage(s1, es[1..]);
      CommitsSplit(es);
      GarbageSplits(s, es[0], Commits(es[1..]));
      WithoutTwice(s.refs, DoomedSet(s, es[0]), GarbageSet(s1, Commits(es[1..])));
      WithoutTwice(s.blocks, DoomedSet(s, es[0]), GarbageSet(s1, Commits(es[1..])));
    }
  }

  lemma NothingIsGarbage(s: State)
    ensures GarbageSet(s, {}) == iset{}
  {
  }

  /** Both stores and the mapping end the same in whatever order a set of revisions is
      evicted. */
  lemma EvictOrderIrrelevant(s: State, es: seq<Entry>, fs: seq<Entry>)
    requires Evictable(s, es) && Evictable(s, fs) && Disjoint(s) && Commits(es) == Commits(fs)
    ensures EvictedAll(s, es).refs == EvictedAll(s, fs).refs
    ensures EvictedAll(s, es).blocks == EvictedAll(s, fs).blocks
    ensures EvictedAll(s, es).mapping == EvictedAll(s, fs).mapping
  {
    EvictAllRemovesGarbage(s, es);
    EvictAllRemovesGarbage(s, fs);
  }

  /** Disjointness is needed: a CID held twice loses one copy per eviction that dooms it,
      so a single eviction leaves its block behind. */
  lemma HeldTwiceSurvivesOnce(s: State, e: Entry, c: Cid)
    requires Evictable(s, [e]) && c in s.refs && c in s.blocks && Garbage(s, {e.commit}, c)
    ensures c in EvictedAll(s, [e]).blocks
  {
  }

  // ---- Blob files: here the order does matter ----

  /** Some reference into p is not garbage once the commits are evicted. */
  ghost predicate StillReferenced(s: State, commits: set<string>, p: Path) {
    exists c :: c in s.refs && s.refs[c].path == p && !Garbage(s, commits, c)
  }

  /** The same once the list has got past its entry i. */
  ghost predicate StillAfter(s: State, es: seq<Entry>, i: nat, p: Path)
    requires i < |es|
  {
    StillReferenced(s, Commits(es[..i + 1]), p)
  }

  /** At every eviction of a revision that lists p, some reference into p is not garbage. */
  ghost predicate AlwaysReferenced(s: State, es: seq<Entry>, p: Path) {
    forall i | 0 <= i < |es| && ListsBlob(es[i], p) :: StillAfter(s, es, i, p)
  }

  lemma AlwaysReferencedSnoc(s: State, before: seq<Entry>, last: Entry, es: seq<Entry>, p: Path)
    requires es == before + [last]
    ensures AlwaysReferenced(s, es, p) <==>
      AlwaysReferenced(s, before, p) && (ListsBlob(last, p) ==> StillReferenced(s, Commits(es), p))
  {
    var m := |before|;
    forall i | 0 <= i < m ensures es[i] == before[i] && (StillAfter(s, es, i, p) <==> StillAfter(s, before, i, p)) {
      assert es[..i + 1] == before[..i + 1];
    }
    assert es[..m + 1] == es && es[m] == last;
  }

  /** A blob file outlives the whole list exactly when, at every eviction of a revision
      that lists it, some reference into it is not garbage yet. */
  lemma {:induction false} BlobOutlivesIff(s: State, es: seq<Entry>, p: Path)
    requires Evictable(s, es) && Disjoint(s) && p.BlobPath? && p in s.disk
    ensures p in EvictedAll(s, es).disk <==> AlwaysReferenced(s, es, p)
    decreases |es|
  {
    if es != [] {
      var before, last := es[..|es| - 1], es[|es| - 1];
      assert es == before + [last];
      assert Evictable(s, before);
      BlobOutlivesIff(s, before, p);
      BlobOutlivesStep(s, before, last, es, p);
      AlwaysReferencedSnoc(s, before, last, es, p);
    }
  }

  lemma BlobOutlivesStep(s: State, before: seq<Entry>, last: Entry, es: seq<Entry>, p: Path)
    requires es == before + [last] && Evictable(s, es) && Evictable(s, before) && Disjoint(s)
    requires p.BlobPath? && p in s.disk
    ensures p in EvictedAll(s, es).disk <==>
      p in EvictedAll(s, before).disk && (ListsBlob(last, p) ==> StillReferenced(s, Commits(es), p))
  {
    var s1 := EvictedAll(s, before);
    EvictAllSnoc(s, before, last);
    EvictAllRemovesGarbage(s, es);
    assert SweptRefs(s1, last) == EvictedAll(s, es).refs;
    StillReferencedIff(s, Commits(es), p);
  }

  lemma StillReferencedIff(s: State, commits: set<string>, p: Path)
    ensures StillReferenced(s, commits, p) <==> Referenced(Without(s.refs, GarbageSet(s, commits)), p)
  {
    var left := Without(s.refs, GarbageSet(s, commits));
    if StillReferenced(s, commits, p) {
      var c :| c in s.refs && s.refs[c].path == p && !Garbage(s, commits, c);
      assert c in left && left[c].path == p;
    }
    if Referenced(left, p) {
      var c :| c in left && left[c].path == p;
      assert c in s.refs && !Garbage(s, commits, c);
    }
  }

  lemma LastLister(es: seq<Entry>, p: Path) returns (i: nat)
    requires Listed(es, p)
    ensures i < |es| && ListsBlob(es[i], p) && forall j | i < j < |es| :: !ListsBlob(es[j], p)
  {
    ghost var k :| 0 <= k < |es| && ListsBlob(es[k], p);
    i := |es| - 1;
    while !ListsBlob(es[i], p)
      invariant k <= i < |es|
      invariant forall j | i < j < |es| :: !ListsBlob(es[j], p)
      decreases i
    {
      i := i - 1;
    }
  }

  /** So no blob leaks when every reference into it is reached by some mapped revision and
      every revision that reaches one lists the blob: what is left is then the same for
      every order, and a listed blob stays only while a reference into it does. */
  lemma OwnedBlobsDoNotLeak(s: State, es: seq<Entry>, p: Path)
    requires Evictable(s, es) && Disjoint(s) && p.BlobPath? && p in s.disk
    requires Owned(s, p)
    ensures p in EvictedAll(s, es).disk <==>
      (Listed(es, p) ==> StillReferenced(s, Commits(es), p))
  {
    BlobOutlivesIff(s, es, p);
    if StillReferenced(s, Commits(es), p) {
      ReferencedThroughout(s, es, p);
    } else if Listed(es, p) {
      var i := LastLister(es, p);
      if StillAfter(s, es, i, p) {
        KeptRefStaysKept(s, es, i, p);
      }
    }
  }

  ghost predicate Listed(es: seq<Entry>, p: Path) {
    exists i :: 0 <= i < |es| && ListsBlob(es[i], p)
  }

  /** Every reference into p is reached by mapped revisions, all of which list p. */
  ghost predicate Owned(s: State, p: Path) {
    forall c | c in s.refs && s.refs[c].path == p :: ReachedFrom(s, s.mapping.Keys, c) && ReachersList(s, c, p)
  }

  ghost predicate ReachersList(s: State, c: Cid, p: Path) {
    forall k | ReachedBy(s, k, c) ::
      ListsBlob(s.mapping[k], p)
  }

  lemma ReferencedThroughout(s: State, es: seq<Entry>, p: Path)
    requires StillReferenced(s, Commits(es), p)
    ensures AlwaysReferenced(s, es, p)
  {
  }

  lemma KeptRefStaysKept(s: State, es: seq<Entry>, i: nat, p: Path)
    requires Evictable(s, es) && i < |es| && StillAfter(s, es, i, p)
    requires Owned(s, p)
    requires forall j | i < j < |es| :: !ListsBlob(es[j], p)
    ensures StillReferenced(s, Commits(es), p)
  {
  }

  /** The hypotheses are needed. Two revisions hold the same chunk in differently named
      blobs, and the reference is backed by the first one's. Evicting that one first
      leaves its file behind for good; the other order removes both files. */
  lemma BlobLeakDependsOnOrder(s: State, a: Entry, b: Entry, p: Path, leaf: Cid)
    requires SharedChunk(s, a, b, p, leaf)
    ensures Evictable(s, [a, b]) && EvictedAll(s, [a, b]).refs == map[] && p in EvictedAll(s, [a, b]).disk
    ensures Evictable(s, [b, a]) && EvictedAll(s, [b, a]).refs == map[] && p !in EvictedAll(s, [b, a]).disk
  {
    var ab, ba := [a] + [b], [b] + [a];
    assert ab == [a, b] && ba == [b, a];
    LeakFirst(s, a, b, p, leaf, ab);
    LeakSecond(s, a, b, p, leaf, ba);
  }

  ghost predicate SharedChunk(s: State, a: Entry, b: Entry, p: Path, leaf: Cid) {
    && a.commit != b.commit && s.mapping == map[a.commit := a, b.commit := b] && Disjoint(s)
    && p.BlobPath? && p in s.disk && ListsBlob(a, p) && !ListsBlob(b, p)
    && s.refs.Keys == {leaf} && s.refs[leaf].path == p
    && ReachedBy(s, a.commit, leaf) && ReachedBy(s, b.commit, leaf)
  }

  lemma LeakFirst(s: State, a: Entry, b: Entry, p: Path, leaf: Cid, ab: seq<Entry>)
    requires SharedChunk(s, a, b, p, leaf) && ab == [a] + [b]
    ensures Evictable(s, ab) && EvictedAll(s, ab).refs == map[] && p in EvictedAll(s, ab).disk
  {
    PairIsGarbage(s, a, b, leaf, ab);
    LoneStays(s, a, b, p, leaf);
    BlobOutlivesStep(s, [a], b, ab, p);
  }

  lemma LeakSecond(s: State, a: Entry, b: Entry, p: Path, leaf: Cid, ba: seq<Entry>)
    requires SharedChunk(s, a, b, p, leaf) && ba == [b] + [a]
    ensures Evictable(s, ba) && EvictedAll(s, ba).refs == map[] && p !in EvictedAll(s, ba).disk
  {
    PairIsGarbage(s, b, a, leaf, ba);
    assert Evictable(s, [b]);
    BlobOutlivesStep(s, [b], a, ba, p);
  }

  lemma LoneStays(s: State, a: Entry, b: Entry, p: Path, leaf: Cid)
    requires SharedChunk(s, a, b, p, leaf)
    ensures Evictable(s, [a]) && p in EvictedAll(s, [a]).disk
  {
    var none: seq<Entry> := [];
    assert none + [a] == [a];
    assert Commits([a]) == {a.commit};
    assert b.commit in s.mapping.Keys - {a.commit};
    BlobOutlivesStep(s, none, a, [a], p);
  }

  lemma PairIsGarbage(s: State, a: Entry, b: Entry, leaf: Cid, ab: seq<Entry>)
    requires a.commit != b.commit && ab == [a] + [b] && Disjoint(s) && s.refs.Keys == {leaf}
    requires s.mapping == map[a.commit := a, b.commit := b] || s.mapping == map[b.commit := b, a.commit := a]
    requires ReachedBy(s, a.commit, leaf) && ReachedBy(s, b.commit, leaf)
    ensures Evictable(s, ab) && EvictedAll(s, ab).refs == map[]
    ensures !exists c :: c in s.refs && !Garbage(s, Commits(ab), c)
  {
    PairCommits(s, a, b, ab);
    EvictAllRemovesGarbage(s, ab);
    LoneRefIsGarbage(s, Commits(ab), a.commit, leaf);
  }

  lemma PairCommits(s: State, a: Entry, b: Entry, ab: seq<Entry>)
    requires a.commit != b.commit && ab == [a] + [b] && a.actual.Some? && b.actual.Some?
    requires s.mapping == map[a.commit := a, b.commit := b] || s.mapping == map[b.commit := b, a.commit := a]
    ensures Evictable(s, ab) && Commits(ab) == s.mapping.Keys && a.commit in Commits(ab)
  {
    assert ab[0] == a && ab[1] == b;
    assert Commits(ab) == {a.commit, b.commit};
  }

  lemma LoneRefIsGarbage(s: State, commits: set<string>, k: string, c: Cid)
    requires commits == s.mapping.Keys && k in commits && ReachedBy(s, k, c) && s.refs.Keys == {c}
    ensures Without(s.refs, GarbageSet(s, commits)) == map[]
    ensures !exists c :: c in s.refs && !Garbage(s, commits, c)
  {
  }

  /** Such a store exists. */
  lemma SharedChunkExists() returns (s: State, a: Entry, b: Entry, p: Path, leaf: Cid)
    ensures SharedChunk(s, a, b, p, leaf) && RefsLive(s) && Honest(s)
  {
    leaf := Hash(Raw([7]));
    var nodeA := Pb(Directory, [Link("f", leaf)]);
    var nodeB := Pb(Directory, [Link("g", leaf)]);
    a := Entry("r", Model, "a", Some(Hash(nodeA)), [FileManifest("f", "x", 1, Sha256([7]), false, "", None)]);
    b := Entry("r", Model, "b", Some(Hash(nodeB)), [FileManifest("g", "y", 1, Sha256([7]), false, "", None)]);
    p := BlobPath(EntryDir(a), "x");
    s := State(map[Hash(nodeA) := nodeA, Hash(nodeB) := nodeB], map[leaf := Ref(p, 0, 1)],
               map[p := [7]], map["a" := a, "b" := b], map[], map[], map[]);
    assert ListsBlob(a, p) by { assert p == BlobPath(EntryDir(a), a.files[0].blobName); }
    assert a.commit == "a" && b.commit == "b" && "a"[0] != "b"[0];
    LinkReached(s.blocks, Hash(nodeA), 0);
    LinkReached(s.blocks, Hash(nodeB), 0);
    assert s.disk[p][0..1] == [7];
  }

  lemma LinkReached(bs: Blocks, a: Cid, i: nat)
    requires a in bs && i < |Links(bs[a])|
    ensures Reaches(bs, a, Links(bs[a])[i].cid)
  {
    ReachesSelf(bs, a);
    assert Edge(bs, a, Links(bs[a])[i].cid);
    ReachesStep(bs, a, a, Links(bs[a])[i].cid);
  }
}
