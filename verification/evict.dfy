/** Evicting mapped revisions: mark what the others reach, sweep the rest from both
    stores, and drop the blob files no reference points into any more. */
module Evict {
  import opened Content
  import opened Graph
  import opened Names
  import opened Store
  import Walk

  /** The revision mapped for commit k reaches c. */
  ghost predicate ReachedBy(s: State, k: string, c: Cid) {
    k in s.mapping && s.mapping[k].actual.Some? && Reaches(s.blocks, s.mapping[k].actual.value, c)
  }

  /** Some mapped revision among commits reaches c. */
  ghost predicate ReachedFrom(s: State, commits: set<string>, c: Cid) {
    exists k :: k in commits && ReachedBy(s, k, c)
  }

  function Others(s: State, commit: string): set<string> {
    s.mapping.Keys - {commit}
  }

  /** c is reached by the evicted revision and by no other. */
  ghost predicate Doomed(s: State, e: Entry, c: Cid) {
    e.actual.Some? && Reaches(s.blocks, e.actual.value, c) && !ReachedFrom(s, Others(s, e.commit), c)
  }

  ghost predicate Referenced(refs: Refs, p: Path) {
    exists c :: c in refs && refs[c].path == p
  }

  /** p is the blob file of a safely named file of the revision. */
  ghost predicate ListsBlob(e: Entry, p: Path) {
    exists i :: 0 <= i < |e.files| && SafeBlobName(e.files[i].blobName) &&
                p == BlobPath(EntryDir(e), e.files[i].blobName)
  }

  predicate InSnapshot(e: Entry, p: Path) {
    Under(EntryDir(e), e.commit, p)
  }

  ghost function DoomedSet(s: State, e: Entry): iset<Cid> {
    iset c | Doomed(s, e, c)
  }

  ghost function SweptRefs(s: State, e: Entry): Refs {
    Without(s.refs, DoomedSet(s, e))
  }

  /** A CID held by both stores loses its reference only. */
  ghost function SweptBlocks(s: State, e: Entry): Blocks {
    Without(s.blocks, DoomedSet(s, e) - KeySet(s.refs))
  }

  ghost function KeySet(refs: Refs): iset<Cid> {
    iset c | c in refs
  }

  ghost function SweptDisk(s: State, e: Entry): Disk {
    map p | p in s.disk && (ListsBlob(e, p) ==> Referenced(SweptRefs(s, e), p)) :: s.disk[p]
  }

  ghost function Swept(s: State, e: Entry): State {
    s.(refs := SweptRefs(s, e), blocks := SweptBlocks(s, e), disk := SweptDisk(s, e))
  }

  /** The removal of the mapping entry and of the revision's cache plumbing. */
  function Unlinked(s: State, e: Entry): State {
    var dir := EntryDir(e);
    s.(disk := map p | p in s.disk && !InSnapshot(e, p) :: s.disk[p],
       mapping := s.mapping - {e.commit},
       links := map p | p in s.links && !InSnapshot(e, p) :: s.links[p],
       trees := s.trees - {(dir, e.commit)},
       heads := if IsHead(s, dir, e.commit) then s.heads - {(dir, MAIN)} else s.heads)
  }

  ghost function Evicted(s: State, e: Entry): State {
    Unlinked(Swept(s, e), e)
  }

  /** What an eviction has done when it stops at an error: some doomed CIDs are swept, and
      some listed blobs gone that nothing references any more. It is still mapped and linked. */
  ghost predicate Stopped(s: State, e: Entry, swept: set<Cid>, s': State) {
    && s' == s.(refs := s'.refs, blocks := s'.blocks, disk := s'.disk)
    && (forall c | c in swept :: Doomed(s, e, c)) && SweptBy(s, swept, s')
    && (forall p | p in s'.disk :: p in s.disk && s'.disk[p] == s.disk[p])
    && (forall p | p in s.disk && p !in s'.disk :: ListsBlob(e, p) && !Referenced(s'.refs, p))
  }

  /** What an eviction may have done by then, or by its end. */
  ghost predicate PartlyEvicted(s: State, e: Entry, s': State) {
    && (forall c | c in s'.refs :: c in s.refs && s'.refs[c] == s.refs[c])
    && (forall c | c in s'.blocks :: c in s.blocks && s'.blocks[c] == s.blocks[c])
    && (forall c | c in s.refs && c !in s'.refs :: Doomed(s, e, c))
    && (forall c | c in s.blocks && c !in s'.blocks :: Doomed(s, e, c))
    && (forall p | p in s'.disk :: p in s.disk && s'.disk[p] == s.disk[p])
    && (forall p | p in s.disk && p !in s'.disk :: (ListsBlob(e, p) && !Referenced(s'.refs, p)) || InSnapshot(e, p))
    && (s'.mapping == s.mapping || s'.mapping == s.mapping - {e.commit})
  }

  /** The items on which a deletion fails. */
  datatype Faults = Faults(cids: set<Cid>, files: set<Path>, mapping: bool)

  const NO_FAULTS := Faults({}, {}, false)

  const MAPPING_FAULT := Faults({}, {}, true)

  /** The commits of all entries, in some order. */
  method List(mapping: map<string, Entry>) returns (ks: seq<string>)
    ensures forall k :: k in ks <==> k in mapping
    ensures forall i, j | 0 <= i < j < |ks| :: ks[i] != ks[j]
  {
    ks := [];
    var todo := mapping.Keys;
    while todo != {}
      invariant todo <= mapping.Keys
      invariant forall k :: k in ks <==> k in mapping && k !in todo
      invariant forall i, j | 0 <= i < j < |ks| :: ks[i] != ks[j]
    {
      var k :| k in todo;
      ks, todo := ks + [k], todo - {k};
    }
  }

  /** Marks everything the other revisions still reach. */
  method MarkOthers(n: Node, commit: string) returns (keep: set<Cid>)
    requires Filed(n.View())
    ensures forall c :: c in keep <==> ReachedFrom(n.View(), Others(n.View(), commit), c)
  {
    var out := new Walk.Visited();
    var ks := List(n.mapping);
    ghost var s := n.View();
    ghost var done: set<string> := {};
    for i := 0 to |ks|
      invariant n.View() == s && fresh(out)
      invariant forall k :: k in done <==> k in ks[..i] && k != commit
      invariant Walk.ClosedSet(n.blocks, out.cids)
      invariant forall c :: c in out.cids <==> ReachedFrom(s, done, c)
    {
      var e := n.mapping[ks[i]];
      if e.commit != commit {
        ghost var before := done;
        done := done + {ks[i]};
        if e.actual.Some? {
          Walk.Visit(n.blocks, e.actual.value, out);
        }
        ReachedFromOneMore(s, before, ks[i]);
      }
    }
    assert done == Others(s, commit);
    keep := out.cids;
  }

  lemma ReachedFromOneMore(s: State, commits: set<string>, k: string)
    ensures forall c :: ReachedFrom(s, commits + {k}, c) <==> ReachedFrom(s, commits, c) || ReachedBy(s, k, c)
  {
  }

  lemma ReachedFromUnion(s: State, a: set<string>, b: set<string>, c: Cid)
    ensures ReachedFrom(s, a + b, c) <==> ReachedFrom(s, a, c) || ReachedFrom(s, b, c)
  {
  }

  /** Deletes every CID of target that is not kept: its reference if it has one, else
      its block. Stops at the first deletion that fails. */
  method Sweep(n: Node, target: set<Cid>, keep: set<Cid>, faults: Faults) returns (ok: bool, ghost done: set<Cid>)
    modifies n
    ensures var s := old(n.View()); var s' := n.View(); s' == s.(refs := s'.refs, blocks := s'.blocks)
    ensures done <= target - keep && (ok ==> done == target - keep) && SweptBy(old(n.View()), done, n.View())
    ensures faults.cids == {} ==> ok
  {
    ghost var s := n.View();
    var todo := target;
    done := {};
    assert SweptBy(s, done, n.View());
    while todo != {}
      invariant todo <= target
      invariant done == target - todo - keep
      invariant SweptBy(s, done, n.View())
      invariant n.View() == s.(refs := n.refs, blocks := n.blocks)
    {
      var c :| c in todo;
      if c !in keep {
        if c in n.refs {
          if c in faults.cids { return false, done; }
          n.refs := n.refs - {c};
        } else if c in n.blocks {
          if c in faults.cids { return false, done; }
          n.blocks := n.blocks - {c};
        }
        done := done + {c};
      }
      todo := todo - {c};
      assert done == target - todo - keep;
    }
    ok := true;
  }

  ghost predicate SweptBy(s: State, dead: set<Cid>, s': State) {
    && (forall c :: c in s'.refs <==> c in s.refs && c !in dead)
    && (forall c :: c in s'.blocks <==> c in s.blocks && !(c in dead && c !in s.refs))
    && (forall c | c in s'.refs :: s'.refs[c] == s.refs[c])
    && (forall c | c in s'.blocks :: s'.blocks[c] == s.blocks[c])
  }

  /** The files the remaining references point into. */
  method ReferencedPaths(refs: Refs) returns (out: set<Path>)
    ensures forall p :: p in out <==> Referenced(refs, p)
  {
    out := {};
    var todo := refs.Keys;
    while todo != {}
      invariant todo <= refs.Keys
      invariant forall p :: p in out <==> exists c :: c in refs && c !in todo && refs[c].path == p
    {
      var c :| c in todo;
      out, todo := out + {refs[c].path}, todo - {c};
    }
  }

  /** Removes the revision's blob files that are not in remaining. A file that is already
      gone is no error. */
  method RemoveBlobs(n: Node, e: Entry, remaining: set<Path>, faults: Faults) returns (ok: bool)
    modifies n`disk
    ensures forall p | p in n.disk :: p in old(n.disk) && n.disk[p] == old(n.disk)[p]
    ensures forall p | p in old(n.disk) && p !in n.disk :: ListsBlob(e, p) && p !in remaining
    ensures ok ==> forall p | p in n.disk && ListsBlob(e, p) :: p in remaining
    ensures faults.files == {} ==> ok
  {
    for i := 0 to |e.files|
      invariant forall p | p in n.disk :: p in old(n.disk) && n.disk[p] == old(n.disk)[p]
      invariant forall p | p in old(n.disk) && p !in n.disk :: ListsBlob(e, p) && p !in remaining
      invariant forall j | 0 <= j < i && SafeBlobName(e.files[j].blobName) ::
        var p := BlobPath(EntryDir(e), e.files[j].blobName); p in n.disk ==> p in remaining
    {
      var f := e.files[i];
      if SafeBlobName(f.blobName) {
        var blob := BlobPath(EntryDir(e), f.blobName);
        if blob !in remaining && blob in n.disk {
          if blob in faults.files { return false; }
          n.disk := n.disk - {blob};
        }
      }
    }
    ok := true;
  }

  /** Removes one mapped revision from every coupled structure. */
  method Commit(n: Node, e: Entry, faults: Faults) returns (ok: bool, ghost swept: set<Cid>)
    requires Filed(n.View())
    modifies n
    ensures if ok then n.View() == Evicted(old(n.View()), e) else Stopped(old(n.View()), e, swept, n.View())
    ensures e.actual.None? ==> !ok && n.View() == old(n.View())
    ensures e.actual.Some? && faults.cids == {} && faults.files == {} ==> ok == !faults.mapping
    ensures e.actual.Some? && faults == MAPPING_FAULT ==> n.View() == Swept(old(n.View()), e)
  {
    ghost var s := n.View();
    swept := {};
    var keep := MarkOthers(n, e.commit);
    if e.actual.None? { return false, swept; }
    var out := new Walk.Visited();
    Walk.Visit(n.blocks, e.actual.value, out);
    var target := out.cids;
    assert forall c :: c in target - keep <==> Doomed(s, e, c);
    ok, swept := Sweep(n, target, keep, faults);
    if !ok { return; }
    assert n.refs == SweptRefs(s, e) && n.blocks == SweptBlocks(s, e);
    var remaining := ReferencedPaths(n.refs);
    ok := RemoveBlobs(n, e, remaining, faults);
    if !ok { return; }
    assert n.disk == SweptDisk(s, e);
    if faults.mapping { return false, swept; }
    Unlink(n, e);
  }

  /** Drops the mapping entry and the cache plumbing of the revision. */
  method Unlink(n: Node, e: Entry)
    modifies n
    ensures n.View() == Unlinked(old(n.View()), e)
  {
    var dir := EntryDir(e);
    n.mapping := n.mapping - {e.commit};
    n.disk := map p | p in n.disk && !InSnapshot(e, p) :: n.disk[p];
    n.links := map p | p in n.links && !InSnapshot(e, p) :: n.links[p];
    n.trees := n.trees - {(dir, e.commit)};
    if IsHead(n.View(), dir, e.commit) { n.heads := n.heads - {(dir, MAIN)}; }
  }

  ghost function EvictedAll(s: State, es: seq<Entry>): State
    decreases |es|
  {
    if es == [] then s else EvictedAll(Evicted(s, es[0]), es[1..])
  }

  lemma {:induction false} EvictAllSnoc(s: State, es: seq<Entry>, e: Entry)
    ensures EvictedAll(s, es + [e]) == Evicted(EvictedAll(s, es), e)
    decreases |es|
  {
    if es == [] {
      assert [e][1..] == [];
      assert es + [e] == [e];
    } else {
      assert (es + [e])[1..] == es[1..] + [e];
      EvictAllSnoc(Evicted(s, es[0]), es[1..], e);
    }
  }

  function Commits(es: seq<Entry>): set<string> {
    set e | e in es :: e.commit
  }

  /** The entries of a repository id, in the order of a commit list. */
  function Selected(mapping: map<string, Entry>, ks: seq<string>, repoId: string): seq<Entry>
    requires forall k | k in ks :: k in mapping
  {
    if ks == [] then []
    else
      var m := |ks| - 1;
      Selected(mapping, ks[..m], repoId) + (if mapping[ks[m]].repoId == repoId then [mapping[ks[m]]] else [])
  }

  lemma {:induction false} SelectedEntries(mapping: map<string, Entry>, ks: seq<string>, repoId: string)
    requires forall k | k in ks :: k in mapping && mapping[k].commit == k
    requires forall i, j | 0 <= i < j < |ks| :: ks[i] != ks[j]
    ensures var es := Selected(mapping, ks, repoId);
      && (forall k :: k in Commits(es) <==> k in ks && mapping[k].repoId == repoId)
      && (forall i | 0 <= i < |es| :: es[i].commit in ks && es[i] == mapping[es[i].commit] && es[i].repoId == repoId)
      && (forall i, j | 0 <= i < j < |es| :: es[i].commit != es[j].commit)
    decreases |ks|
  {
    if ks != [] {
      var m := |ks| - 1;
      SelectedEntries(mapping, ks[..m], repoId);
      assert ks == ks[..m] + [ks[m]];
      var es, es' := Selected(mapping, ks[..m], repoId), Selected(mapping, ks, repoId);
      if es' != es {
        assert es' == es + [mapping[ks[m]]];
        assert Commits(es') == Commits(es) + {ks[m]};
      }
    }
  }

  /** Some revision of the repository id is mapped, and all of them have a root that decodes. */
  ghost predicate Evictable(mapping: map<string, Entry>, repoId: string) {
    && (exists k :: k in mapping && mapping[k].repoId == repoId)
    && forall k | k in mapping && mapping[k].repoId == repoId :: mapping[k].actual.Some?
  }

  /** Evicts every mapped revision of a repository id, whatever its type, and counts
      them. Having none to evict is an error; a failed eviction stops the loop. */
  method Repo(n: Node, repoId: string, faults: Faults)
    returns (ok: bool, count: nat, ghost ks: seq<string>, ghost swept: set<Cid>)
    requires Filed(n.View())
    modifies n
    ensures forall k :: k in ks <==> k in old(n.mapping)
    ensures forall i, j | 0 <= i < j < |ks| :: ks[i] != ks[j]
    ensures count <= |Selected(old(n.mapping), ks, repoId)|
    ensures ok ==> n.View() == EvictedAll(old(n.View()), Selected(old(n.mapping), ks, repoId))
    ensures ok ==> count == |Selected(old(n.mapping), ks, repoId)| > 0
    ensures !ok ==> StoppedAt(old(n.View()), Selected(old(n.mapping), ks, repoId), count, swept, n.View())
    ensures Evictable(old(n.mapping), repoId) && faults.cids == {} && faults.files == {} && !faults.mapping ==> ok
  {
    ghost var s := n.View();
    var entries := n.mapping;
    var order := List(entries);
    ks, count, swept := order, 0, {};
    ghost var gone: seq<Entry> := [];
    for i := 0 to |order|
      invariant Filed(n.View())
      invariant gone == Selected(entries, order[..i], repoId) && count == |gone|
      invariant n.View() == EvictedAll(s, gone)
    {
      assert order[..i + 1][..i] == order[..i];
      var e := entries[order[i]];
      if e.repoId == repoId {
        SelectedStep(entries, order, i, repoId);
        ok, swept := CommitNext(n, e, faults, s, gone);
        if !ok { return; }
        gone := gone + [e];
        count := count + 1;
      }
    }
    assert order[..|order|] == order;
    SelectedEntries(entries, order, repoId);
    ok := count > 0;
  }

  /** The list was worked off up to es[count], which was evicted in part; or it is empty. */
  ghost predicate StoppedAt(s: State, es: seq<Entry>, count: nat, swept: set<Cid>, s': State) {
    if es == [] then s' == s
    else count < |es| && Stopped(EvictedAll(s, es[..count]), es[count], swept, s')
  }

  lemma SelectedStep(mapping: map<string, Entry>, ks: seq<string>, i: nat, repoId: string)
    requires i < |ks| && (forall k | k in ks :: k in mapping) && mapping[ks[i]].repoId == repoId
    ensures var all, part := Selected(mapping, ks, repoId), Selected(mapping, ks[..i], repoId);
      |part| < |all| && all[..|part|] == part && all[|part|] == mapping[ks[i]]
  {
    SelectedPrefix(mapping, ks, i + 1, repoId);
    assert ks[..i + 1][..i] == ks[..i];
    var all, part := Selected(mapping, ks, repoId), Selected(mapping, ks[..i], repoId);
    assert all[..|part| + 1] == part + [mapping[ks[i]]];
    assert all[..|part|] == all[..|part| + 1][..|part|];
  }

  method CommitNext(n: Node, e: Entry, faults: Faults, ghost s: State, ghost gone: seq<Entry>)
    returns (ok: bool, ghost swept: set<Cid>)
    requires Filed(n.View()) && n.View() == EvictedAll(s, gone)
    modifies n
    ensures ok ==> Filed(n.View()) && n.View() == EvictedAll(s, gone + [e])
    ensures !ok ==> Stopped(EvictedAll(s, gone), e, swept, n.View())
    ensures e.actual.Some? && faults.cids == {} && faults.files == {} && !faults.mapping ==> ok
  {
    ok, swept := Commit(n, e, faults);
    EvictAllSnoc(s, gone, e);
  }

  lemma {:induction false} SelectedPrefix(mapping: map<string, Entry>, ks: seq<string>, i: nat, repoId: string)
    requires i <= |ks| && forall k | k in ks :: k in mapping
    ensures var all, part := Selected(mapping, ks, repoId), Selected(mapping, ks[..i], repoId);
      |part| <= |all| && all[..|part|] == part
    decreases |ks|
  {
    if i < |ks| {
      var m := |ks| - 1;
      assert ks[..m][..i] == ks[..i];
      SelectedPrefix(mapping, ks[..m], i, repoId);
    } else {
      assert ks[..i] == ks;
    }
  }
}
