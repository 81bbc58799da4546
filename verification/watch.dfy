/** The rescan loop: share what is finalized, prune what has vanished. */
module Watch {
  import opened Content
  import opened Dummy
  import opened Names
  import opened Store
  import opened Snapshot
  import opened Share
  import Evict
  import EvictLaws
  import Graph
  import Ingest

  // ---- What is listed, current and finalized ----

  /** The repository ids that the directory names of the hub decode to. */
  function Repos(hub: set<string>): set<string> {
    set name | name in hub && RepoFromDirName(name).Some? :: RepoFromDirName(name).value.0
  }

  /** The type whose directory exists, models first. */
  function TypeOnDisk(hub: set<string>, id: string): RepoType {
    if RepoDirName(id, Model) in hub then Model
    else if RepoDirName(id, Dataset) in hub then Dataset
    else if RepoDirName(id, Space) in hub then Space
    else Model
  }

  function DirOf(hub: set<string>, id: string): string {
    RepoDirName(id, TypeOnDisk(hub, id))
  }

  /** A listed id leads to one of the directories: the model's if there is one, else the dataset's. */
  lemma ListedHasDir(hub: set<string>, id: string)
    requires id in Repos(hub) && forall name | name in hub :: '/' !in name
    ensures DirOf(hub, id) in hub
    ensures RepoDirName(id, Model) in hub ==> DirOf(hub, id) == RepoDirName(id, Model)
    ensures RepoDirName(id, Model) !in hub && RepoDirName(id, Dataset) in hub
      ==> DirOf(hub, id) == RepoDirName(id, Dataset)
  {
    var name :| name in hub && RepoFromDirName(name).Some? && RepoFromDirName(name).value.0 == id;
    DirNameRoundTrip(name);
  }

  predicate Complete(s: State, dir: string, commit: string) {
    SnapshotComplete(s.disk, s.links, dir, commit)
  }

  /** A finalized snapshot that shows some file. */
  predicate Shareable(s: State, dir: string, commit: string) {
    Complete(s, dir, commit) && Visible(s.disk, s.links, dir, commit) != {}
  }

  /** k is what a listed repository has finalized. */
  ghost predicate FinalHead(s: State, hub: set<string>, k: string) {
    exists id :: id in Repos(hub) && HeadOf(s, hub, id, k)
  }

  ghost predicate HeadOf(s: State, hub: set<string>, id: string, k: string) {
    IsHead(s, DirOf(hub, id), k) && Shareable(s, DirOf(hub, id), k)
  }

  /** The entry's content is all in the cache. */
  predicate Kept(s: State, hub: set<string>, e: Entry) {
    EntryDir(e) in hub && Complete(s, EntryDir(e), e.commit)
  }

  ghost predicate AllKept(s: State, hub: set<string>) {
    forall k | k in s.mapping :: Kept(s, hub, s.mapping[k])
  }

  /** There is nothing to prune and nothing to share. */
  ghost predicate Settled(s: State, hub: set<string>) {
    AllKept(s, hub) && forall k | FinalHead(s, hub, k) :: k in s.mapping
  }

  // ---- What a scan relies on ----

  /** Entries are filed and blocks honest. */
  ghost predicate Sound(s: State) {
    Filed(s) && Honest(s)
  }

  /** Some reference into the blob belongs to an entry that is kept. */
  ghost predicate Protected(s: State, hub: set<string>, blob: Path) {
    exists k, x :: ProtectedBy(s, hub, blob, k, x)
  }

  ghost predicate ProtectedBy(s: State, hub: set<string>, blob: Path, k: string, x: Cid) {
    Evict.ReachedBy(s, k, x) && Kept(s, hub, s.mapping[k]) && x in s.refs && s.refs[x].path == blob
  }

  /** The finalized head of a listed repository, not mapped yet. An empty id among those listed
      spoils it: that stands for all repositories when mappings are dropped. */
  ghost predicate NewHead(s: State, hub: set<string>, dir: string, commit: string) {
    "" !in Repos(hub) && commit !in s.mapping && exists id :: HeadIn(s, hub, id, dir, commit)
  }

  ghost predicate HeadIn(s: State, hub: set<string>, id: string, dir: string, commit: string) {
    id in Repos(hub) && DirOf(hub, id) == dir && HeadOf(s, hub, id, commit)
  }

  /** A reference into the blob that the entry reaches belongs to the DAG of a new head in the same
      directory as well: that one is mapped before the entry is pruned. */
  ghost predicate HeadHolds(s: State, hub: set<string>, im: Importer, dir: string, commit: string, e: Entry, blob: Path)
  {
    EntryDir(e) == dir && NewHead(s, hub, dir, commit) && exists x :: HeldAt(s, im, dir, commit, e, blob, x)
  }

  ghost predicate HeldAt(s: State, im: Importer, dir: string, commit: string, e: Entry, blob: Path, x: Cid) {
    && Evict.ReachedBy(s, e.commit, x) && x in s.refs && s.refs[x].path == blob && RefsRaw(s)
    && forall root | WouldMap(s, im, dir, commit, root) :: InDag(x, root)
  }

  /** Some entry of the snapshot is backed by a blob that e lists, and that neither a kept entry nor
      the snapshot itself protects. */
  ghost predicate UsesBlobOf(s: State, hub: set<string>, im: Importer, dir: string, commit: string, e: Entry) {
    exists p :: p in SnapshotEntries(s.disk, s.links, dir, commit) && UsesAt(s, hub, im, dir, commit, p, e)
  }

  ghost predicate UsesAt(s: State, hub: set<string>, im: Importer, dir: string, commit: string, p: Path, e: Entry) {
    var src := Source(s.disk, s.links, p);
    && src.Some? && Evict.ListsBlob(e, src.value) && !Protected(s, hub, src.value)
    && !HeadHolds(s, hub, im, dir, commit, e, src.value)
  }

  /** No complete snapshot is backed by an unprotected blob of an entry that is due for pruning. */
  ghost predicate NoSharing(s: State, hub: set<string>, im: Importer) {
    forall k, d, c | k in s.mapping && !Kept(s, hub, s.mapping[k]) && Complete(s, d, c) ::
      !UsesBlobOf(s, hub, im, d, c, s.mapping[k])
  }

  /** An entry filed under the head of a listed repository is for that repository, and two
      repositories with the same head are one. */
  ghost predicate Identified(s: State, hub: set<string>) {
    && (forall id, k | id in Repos(hub) && IsHead(s, DirOf(hub, id), k) && k in s.mapping ::
      EntryDir(s.mapping[k]) == DirOf(hub, id))
    && (forall x, y, k | x in Repos(hub) && y in Repos(hub) && IsHead(s, DirOf(hub, x), k) ::
      IsHead(s, DirOf(hub, y), k) ==> DirOf(hub, x) == DirOf(hub, y))
  }

  /** The hub holds the directories of the snapshots, under names of one segment. */
  ghost predicate HubOf(s: State, hub: set<string>) {
    (forall name | name in hub :: '/' !in name) && (forall d, c | Complete(s, d, c) :: d in hub)
  }

  ghost predicate Ready(s: State, hub: set<string>, im: Importer) {
    && Sound(s) && (forall k | k in s.mapping :: s.mapping[k].actual.Some?)
    && NoSharing(s, hub, im) && Identified(s, hub) && HubOf(s, hub)
  }

  // ---- What a scan does, step by step ----

  ghost predicate SameSnapshots(s: State, s': State) {
    && (forall d, c :: Complete(s, d, c) <==> Complete(s', d, c))
    && (forall d, c :: Shareable(s, d, c) <==> Shareable(s', d, c))
  }

  /** Complete snapshots and finalized heads stay, entries that are kept stay, and a new entry
      is for the finalized head of a listed repository. */
  ghost predicate Progress(s: State, hub: set<string>, s': State) {
    && SameSnapshots(s, s')
    && (forall d, k :: IsHead(s', d, k) ==> IsHead(s, d, k))
    && (forall d, k | IsHead(s, d, k) && Complete(s, d, k) :: IsHead(s', d, k))
    && (forall k | k in s.mapping && Kept(s, hub, s.mapping[k]) :: k in s'.mapping && s'.mapping[k] == s.mapping[k])
    && (forall k | k in s'.mapping :: (k in s.mapping && s'.mapping[k] == s.mapping[k]) || FinalHead(s, hub, k))
  }

  lemma ProgressTwice(s: State, hub: set<string>, s1: State, s2: State)
    requires Progress(s, hub, s1) && Progress(s1, hub, s2)
    ensures Progress(s, hub, s2)
  {
    forall k | k in s2.mapping ensures (k in s.mapping && s2.mapping[k] == s.mapping[k]) || FinalHead(s, hub, k) {
      SameFinalHeads(s, hub, s1, k);
    }
  }

  /** What is finalized does not change. */
  lemma SameFinalHeads(s: State, hub: set<string>, s': State, k: string)
    requires Progress(s, hub, s')
    ensures forall id :: HeadOf(s, hub, id, k) <==> HeadOf(s', hub, id, k)
    ensures FinalHead(s, hub, k) <==> FinalHead(s', hub, k)
  {
  }

  /** The entry of a finalized head is kept. */
  lemma HeadEntryKept(s: State, hub: set<string>, im: Importer, id: string, k: string)
    requires Ready(s, hub, im) && id in Repos(hub) && HeadOf(s, hub, id, k) && k in s.mapping
    ensures Kept(s, hub, s.mapping[k])
  {
  }

  // ---- One eviction ----

  /** Evicting an entry leaves the entries of every other snapshot where they are; they lose
      their source only with a blob that the evicted entry lists and nothing references then. */
  lemma EvictSources(s: State, e: Entry, d: string, c: string, p: Path)
    requires (d != EntryDir(e) || c != e.commit) && p in SnapshotEntries(s.disk, s.links, d, c)
    ensures var s' := Evict.Evicted(s, e); var src := Source(s.disk, s.links, p);
      && SnapshotEntries(s'.disk, s'.links, d, c) == SnapshotEntries(s.disk, s.links, d, c)
      && (Source(s'.disk, s'.links, p).Some? ==> Source(s'.disk, s'.links, p) == src)
      && (src.Some? && (Evict.ListsBlob(e, src.value) ==> Evict.Referenced(s'.refs, src.value)) ==>
            Source(s'.disk, s'.links, p) == src)
  {
  }

  /** A protected blob stays referenced. */
  lemma ProtectedStaysReferenced(s: State, hub: set<string>, e: Entry, blob: Path)
    requires Protected(s, hub, blob) && !Kept(s, hub, e) && (e.commit in s.mapping ==> s.mapping[e.commit] == e)
    ensures Evict.Referenced(Evict.Evicted(s, e).refs, blob)
  {
    var k, x :| ProtectedBy(s, hub, blob, k, x);
    EvictLaws.SurvivorNotDoomed(s, e, k, x);
    assert x in Evict.Evicted(s, e).refs;
  }

  /** An evicted snapshot is not complete afterwards. */
  lemma EvictedIsIncomplete(s: State, e: Entry)
    ensures !Complete(Evict.Evicted(s, e), EntryDir(e), e.commit)
  {
  }

  /** e is mapped under its commit and due for pruning. */
  ghost predicate Due(s: State, hub: set<string>, e: Entry) {
    e.commit in s.mapping && s.mapping[e.commit] == e && !Kept(s, hub, e)
  }

  ghost predicate SameSources(s: State, s': State, d: string, c: string) {
    && SnapshotEntries(s'.disk, s'.links, d, c) == SnapshotEntries(s.disk, s.links, d, c)
    && forall p | p in SnapshotEntries(s.disk, s.links, d, c) ::
      Source(s'.disk, s'.links, p) == Source(s.disk, s.links, p)
  }

  lemma EvictComplete(s: State, hub: set<string>, im: Importer, e: Entry, d: string, c: string)
    requires HubOf(s, hub) && Due(s, hub, e) && (Complete(s, d, c) ==> !UsesBlobOf(s, hub, im, d, c, e))
    requires HeadsMapped(s, hub, EntryDir(e))
    ensures Complete(Evict.Evicted(s, e), d, c) <==> Complete(s, d, c)
    ensures Shareable(Evict.Evicted(s, e), d, c) <==> Shareable(s, d, c)
    ensures Complete(s, d, c) ==> SameSources(s, Evict.Evicted(s, e), d, c)
  {
    EvictedIsIncomplete(s, e);
    if d != EntryDir(e) || c != e.commit {
      forall p | p in SnapshotEntries(s.disk, s.links, d, c) && Complete(s, d, c)
        ensures Source(Evict.Evicted(s, e).disk, Evict.Evicted(s, e).links, p) == Source(s.disk, s.links, p)
      {
        EvictSources(s, e, d, c, p);
        var src := Source(s.disk, s.links, p).value;
        assert !UsesAt(s, hub, im, d, c, p, e);
        if Protected(s, hub, src) { ProtectedStaysReferenced(s, hub, e, src); }
      }
      OtherEntriesStay(s, e, d, c);
    }
  }

  lemma OtherEntriesStay(s: State, e: Entry, d: string, c: string)
    requires d != EntryDir(e) || c != e.commit
    ensures var s' := Evict.Evicted(s, e);
      && SnapshotEntries(s'.disk, s'.links, d, c) == SnapshotEntries(s.disk, s.links, d, c)
      && Visible(s'.disk, s'.links, d, c) == Visible(s.disk, s.links, d, c)
      && forall p | p in SnapshotEntries(s.disk, s.links, d, c) && Source(s'.disk, s'.links, p).Some? ::
        Source(s.disk, s.links, p).Some?
  {
  }

  lemma EvictedFields(s: State, e: Entry)
    requires Sound(s)
    ensures Sound(Evict.Evicted(s, e)) && Evict.Evicted(s, e).mapping == s.mapping - {e.commit}
    ensures forall d, k ::
      IsHead(Evict.Evicted(s, e), d, k) <==> IsHead(s, d, k) && !(d == EntryDir(e) && k == e.commit)
  {
  }

  /** The finalized heads in the directory are mapped. */
  ghost predicate HeadsMapped(s: State, hub: set<string>, dir: string) {
    "" in Repos(hub) || forall id, k | HeadIn(s, hub, id, dir, k) :: k in s.mapping
  }

  /** They stay mapped. */
  lemma HeadsStayMapped(s: State, hub: set<string>, im: Importer, dir: string, s': State)
    requires Ready(s, hub, im) && Progress(s, hub, s') && HeadsMapped(s, hub, dir)
    ensures HeadsMapped(s', hub, dir)
  {
    forall id, k | HeadIn(s', hub, id, dir, k) && "" !in Repos(hub) ensures k in s'.mapping {
      SameFinalHeads(s, hub, s', k);
      assert HeadIn(s, hub, id, dir, k);
      HeadEntryKept(s, hub, im, id, k);
    }
  }

  /** Pruning an entry whose content is missing is progress, once the heads in its directory are
      mapped. */
  lemma PruneStep(s: State, hub: set<string>, im: Importer, e: Entry)
    requires Ready(s, hub, im) && Due(s, hub, e) && HeadsMapped(s, hub, EntryDir(e))
    ensures Progress(s, hub, Evict.Evicted(s, e)) && Ready(Evict.Evicted(s, e), hub, im)
  {
    EvictedFields(s, e);
    PruneKeepsSnapshots(s, hub, im, e);
    PruneKeepsNoSharing(s, hub, im, e);
  }

  lemma PruneKeepsSnapshots(s: State, hub: set<string>, im: Importer, e: Entry)
    requires Ready(s, hub, im) && Due(s, hub, e) && HeadsMapped(s, hub, EntryDir(e))
    ensures SameSnapshots(s, Evict.Evicted(s, e))
  {
    forall d, c
      ensures Complete(s, d, c) <==> Complete(Evict.Evicted(s, e), d, c)
      ensures Shareable(s, d, c) <==> Shareable(Evict.Evicted(s, e), d, c)
    {
      EvictComplete(s, hub, im, e, d, c);
    }
  }

  lemma PruneKeepsNoSharing(s: State, hub: set<string>, im: Importer, e: Entry)
    requires Ready(s, hub, im) && Due(s, hub, e) && SameSnapshots(s, Evict.Evicted(s, e))
    requires HeadsMapped(s, hub, EntryDir(e))
    ensures NoSharing(Evict.Evicted(s, e), hub, im)
  {
    var s' := Evict.Evicted(s, e);
    EvictedFields(s, e);
    forall j, d, c | j in s'.mapping && !Kept(s', hub, s'.mapping[j]) && Complete(s', d, c)
      ensures !UsesBlobOf(s', hub, im, d, c, s'.mapping[j])
    {
      EvictComplete(s, hub, im, e, d, c);
      assert !UsesBlobOf(s, hub, im, d, c, s.mapping[j]);
      assert s.mapping[j].commit == j;
      UsesStayAway(s, hub, im, e, d, c, s.mapping[j]);
    }
  }

  lemma UsesStayAway(s: State, hub: set<string>, im: Importer, e: Entry, d: string, c: string, other: Entry)
    requires Sound(s) && Due(s, hub, e) && SameSnapshots(s, Evict.Evicted(s, e)) && Complete(s, d, c)
    requires SameSources(s, Evict.Evicted(s, e), d, c) && other.commit != e.commit
    requires !UsesBlobOf(s, hub, im, d, c, other)
    ensures !UsesBlobOf(Evict.Evicted(s, e), hub, im, d, c, other)
  {
    forall p | p in SnapshotEntries(s.disk, s.links, d, c)
      ensures !UsesAt(Evict.Evicted(s, e), hub, im, d, c, p, other)
    {
      assert !UsesAt(s, hub, im, d, c, p, other);
      var src := Source(s.disk, s.links, p);
      if src.Some? && Protected(s, hub, src.value) {
        ProtectionStays(s, hub, e, src.value);
      } else if src.Some? && HeadHolds(s, hub, im, d, c, other, src.value) {
        HeadHoldStays(s, hub, im, e, d, c, other, src.value);
      }
    }
  }

  lemma HeadHoldStays(s: State, hub: set<string>, im: Importer, e: Entry, d: string, c: string, other: Entry,
      blob: Path)
    requires Sound(s) && Due(s, hub, e) && SameSnapshots(s, Evict.Evicted(s, e)) && Complete(s, d, c)
    requires SameSources(s, Evict.Evicted(s, e), d, c) && other.commit != e.commit
    requires HeadHolds(s, hub, im, d, c, other, blob)
    ensures HeadHolds(Evict.Evicted(s, e), hub, im, d, c, other, blob)
  {
    var s' := Evict.Evicted(s, e);
    var x :| HeldAt(s, im, d, c, other, blob, x);
    EvictLaws.SurvivorNotDoomed(s, e, other.commit, x);
    EvictLaws.EvictionIsPartly(s, e);
    EvictLaws.SurvivorReachesSame(s, e, s', other.commit, x);
    forall root | WouldMap(s', im, d, c, root) ensures InDag(x, root) { WouldMapBack(s, s', im, d, c, root); }
    assert HeldAt(s', im, d, c, other, blob, x);
    NewHeadStays(s, hub, e, d, c);
  }

  lemma NewHeadStays(s: State, hub: set<string>, e: Entry, d: string, c: string)
    requires Sound(s) && Due(s, hub, e) && SameSnapshots(s, Evict.Evicted(s, e)) && NewHead(s, hub, d, c)
    ensures NewHead(Evict.Evicted(s, e), hub, d, c)
  {
    EvictedFields(s, e);
    var id :| HeadIn(s, hub, id, d, c);
    assert HeadIn(Evict.Evicted(s, e), hub, id, d, c);
  }

  lemma EntryBack(s: State, s': State, d: string, c: string, f: FileManifest)
    requires SameSources(s, s', d, c) && EntryOf(s'.disk, s'.links, d, c, f)
    requires LinkPath(d, c, f) in Visible(s'.disk, s'.links, d, c)
    requires forall p | p in s'.disk :: p in s.disk && s'.disk[p] == s.disk[p]
    ensures f.src.Some? && f.src.value in s'.disk && EntryOf(s.disk, s.links, d, c, f)
  {
  }

  /** With the same sources the same DAG would be recorded. */
  lemma WouldMapBack(s: State, s': State, im: Importer, d: string, c: string, root: Cid)
    requires SameSources(s, s', d, c) && Complete(s, d, c) && WouldMap(s', im, d, c, root)
    requires forall p | p in s'.disk :: p in s.disk && s'.disk[p] == s.disk[p]
    ensures WouldMap(s, im, d, c, root)
  {
    var fs :| WouldMapFiles(s', im, d, c, fs, root);
    forall f: FileManifest | f in fs
      ensures f.src.Some? && f.src.value in s'.disk && EntryOf(s.disk, s.links, d, c, f)
    {
      EntryBack(s, s', d, c, f);
    }
    SameLeaves(s'.disk, s.disk, im, fs, fs);
    assert WouldMapFiles(s, im, d, c, fs, root);
  }

  lemma ProtectionStays(s: State, hub: set<string>, e: Entry, blob: Path)
    requires Due(s, hub, e) && SameSnapshots(s, Evict.Evicted(s, e)) && Protected(s, hub, blob)
    ensures Protected(Evict.Evicted(s, e), hub, blob)
  {
    var s' := Evict.Evicted(s, e);
    var k, x :| ProtectedBy(s, hub, blob, k, x);
    EvictLaws.SurvivorNotDoomed(s, e, k, x);
    EvictLaws.EvictionIsPartly(s, e);
    EvictLaws.SurvivorReachesSame(s, e, s', k, x);
    assert ProtectedBy(s', hub, blob, k, x);
  }

  /** Mapping the finalized head of a listed repository is progress. */
  lemma ShareStep(s: State, hub: set<string>, im: Importer, id: string, commit: string, s': State)
    requires Ready(s, hub, im) && id in Repos(hub) && Ingest.IngestStep(s, s', commit, true) && commit !in s.mapping
    requires EntryDir(s'.mapping[commit]) == DirOf(hub, id) && HeadOf(s, hub, id, commit)
    requires WouldMap(s, im, DirOf(hub, id), commit, s'.mapping[commit].actual.value)
    ensures Progress(s, hub, s') && Ready(s', hub, im)
  {
    ShareKeepsSound(s, hub, commit, s');
    ShareIsProgress(s, hub, id, commit, s');
    ShareKeepsIdentified(s, hub, id, commit, s');
    ListedHasDir(hub, id);
    ShareKeepsNoSharing(s, hub, im, id, commit, s');
  }

  lemma ShareKeepsNoSharing(s: State, hub: set<string>, im: Importer, id: string, commit: string, s': State)
    requires Ready(s, hub, im) && id in Repos(hub) && HeadOf(s, hub, id, commit)
    requires Ingest.IngestStep(s, s', commit, true) && commit !in s.mapping && DirOf(hub, id) in hub
    requires EntryDir(s'.mapping[commit]) == DirOf(hub, id)
    requires WouldMap(s, im, DirOf(hub, id), commit, s'.mapping[commit].actual.value)
    ensures NoSharing(s', hub, im)
  {
    forall j, d, c | j in s'.mapping && !Kept(s', hub, s'.mapping[j]) && Complete(s', d, c)
      ensures !UsesBlobOf(s', hub, im, d, c, s'.mapping[j])
    {
      SharingStillNone(s, hub, im, id, commit, s', j, d, c);
    }
  }

  lemma ShareKeepsSound(s: State, hub: set<string>, commit: string, s': State)
    requires Sound(s) && HubOf(s, hub) && Ingest.IngestStep(s, s', commit, true)
    ensures Sound(s') && HubOf(s', hub)
  {
    Ingest.EnlargedKeeps(s, s'.(mapping := s.mapping));
    forall d, c | Complete(s', d, c) ensures d in hub { assert Complete(s, d, c); }
  }

  lemma ShareIsProgress(s: State, hub: set<string>, id: string, commit: string, s': State)
    requires id in Repos(hub) && Ingest.IngestStep(s, s', commit, true) && commit !in s.mapping
    requires HeadOf(s, hub, id, commit)
    ensures Progress(s, hub, s')
  {
    assert SameSnapshots(s, s');
    assert FinalHead(s, hub, commit);
  }

  lemma ShareKeepsIdentified(s: State, hub: set<string>, id: string, commit: string, s': State)
    requires Identified(s, hub) && id in Repos(hub) && Ingest.IngestStep(s, s', commit, true) && commit !in s.mapping
    requires EntryDir(s'.mapping[commit]) == DirOf(hub, id) && HeadOf(s, hub, id, commit)
    ensures Identified(s', hub)
  {
    forall x, k | x in Repos(hub) && IsHead(s', DirOf(hub, x), k) && k in s'.mapping
      ensures EntryDir(s'.mapping[k]) == DirOf(hub, x)
    {
      assert IsHead(s, DirOf(hub, x), k);
    }
    forall x, y, k | x in Repos(hub) && y in Repos(hub) && IsHead(s', DirOf(hub, x), k)
      ensures IsHead(s', DirOf(hub, y), k) ==> DirOf(hub, x) == DirOf(hub, y)
    {
      assert IsHead(s, DirOf(hub, x), k);
      assert IsHead(s, DirOf(hub, y), k) <==> IsHead(s', DirOf(hub, y), k);
    }
  }

  lemma SharingStillNone(s: State, hub: set<string>, im: Importer, id: string, commit: string, s': State, j: string,
      d: string, c: string)
    requires Ready(s, hub, im) && id in Repos(hub) && HeadOf(s, hub, id, commit)
    requires Ingest.IngestStep(s, s', commit, true) && commit !in s.mapping && DirOf(hub, id) in hub
    requires EntryDir(s'.mapping[commit]) == DirOf(hub, id)
    requires WouldMap(s, im, DirOf(hub, id), commit, s'.mapping[commit].actual.value)
    requires j in s'.mapping && !Kept(s', hub, s'.mapping[j]) && Complete(s', d, c)
    ensures !UsesBlobOf(s', hub, im, d, c, s'.mapping[j])
  {
    assert s'.disk == s.disk && s'.links == s.links && s'.heads == s.heads;
    assert j != commit && Kept(s, hub, s.mapping[j]) == Kept(s', hub, s.mapping[j]) && Complete(s, d, c);
    assert !UsesBlobOf(s, hub, im, d, c, s.mapping[j]);
    forall p | p in SnapshotEntries(s.disk, s.links, d, c) ensures !UsesAt(s', hub, im, d, c, p, s.mapping[j]) {
      assert !UsesAt(s, hub, im, d, c, p, s.mapping[j]);
      var src := Source(s.disk, s.links, p);
      if src.Some? { StillSafe(s, hub, im, id, commit, s', d, c, s.mapping[j], src.value); }
    }
  }

  lemma StillProtected(s: State, hub: set<string>, commit: string, s': State, blob: Path)
    requires Ingest.IngestStep(s, s', commit, true) && commit !in s.mapping && Protected(s, hub, blob)
    ensures Protected(s', hub, blob)
  {
    var k, x :| ProtectedBy(s, hub, blob, k, x);
    ReachedStays(s, s', commit, k, x);
    assert ProtectedBy(s', hub, blob, k, x);
  }

  lemma ReachedStays(s: State, s': State, commit: string, k: string, x: Cid)
    requires Ingest.IngestStep(s, s', commit, true) && k != commit && Evict.ReachedBy(s, k, x)
    ensures Evict.ReachedBy(s', k, x)
  {
    Graph.ReachesGrows(s.blocks, s'.blocks, s.mapping[k].actual.value, x);
  }

  /** What a kept entry or a new head protects stays protected by one. */
  lemma StillSafe(s: State, hub: set<string>, im: Importer, id: string, commit: string, s': State, d: string,
      c: string, e: Entry, blob: Path)
    requires Honest(s) && Identified(s, hub) && id in Repos(hub) && HeadOf(s, hub, id, commit)
    requires Ingest.IngestStep(s, s', commit, true) && commit !in s.mapping && DirOf(hub, id) in hub
    requires EntryDir(s'.mapping[commit]) == DirOf(hub, id) && e.commit != commit
    requires WouldMap(s, im, DirOf(hub, id), commit, s'.mapping[commit].actual.value)
    ensures Protected(s, hub, blob) ==> Protected(s', hub, blob)
    ensures HeadHolds(s, hub, im, d, c, e, blob) ==>
      Protected(s', hub, blob) || HeadHolds(s', hub, im, d, c, e, blob)
  {
    if Protected(s, hub, blob) { StillProtected(s, hub, commit, s', blob); }
    if HeadHolds(s, hub, im, d, c, e, blob) {
      if c == commit {
        var other :| HeadIn(s, hub, other, d, c);
        HeadGetsMapped(s, hub, im, id, commit, s', e, blob);
      } else {
        OtherHeadHolds(s, hub, im, commit, s', d, c, e, blob);
      }
    }
  }

  /** When a head is mapped that held a blob, its own entry protects the blob from then on. */
  lemma HeadGetsMapped(s: State, hub: set<string>, im: Importer, id: string, commit: string, s': State, e: Entry,
      blob: Path)
    requires Honest(s) && HeadOf(s, hub, id, commit) && DirOf(hub, id) in hub
    requires Ingest.IngestStep(s, s', commit, true) && EntryDir(s'.mapping[commit]) == DirOf(hub, id)
    requires WouldMap(s, im, DirOf(hub, id), commit, s'.mapping[commit].actual.value)
    requires HeadHolds(s, hub, im, DirOf(hub, id), commit, e, blob)
    ensures Protected(s', hub, blob)
  {
    var x :| HeldAt(s, im, DirOf(hub, id), commit, e, blob, x);
    NewRefsRaw(s, s', commit);
    MappedReaches(s, s', commit, x);
    assert ProtectedBy(s', hub, blob, commit, x);
  }

  /** Any other head holds what it held. */
  lemma OtherHeadHolds(s: State, hub: set<string>, im: Importer, commit: string, s': State, d: string, c: string,
      e: Entry, blob: Path)
    requires Ingest.IngestStep(s, s', commit, true) && e.commit != commit && c != commit
    requires HeadHolds(s, hub, im, d, c, e, blob)
    ensures HeadHolds(s', hub, im, d, c, e, blob)
  {
    var x :| HeldAt(s, im, d, c, e, blob, x);
    OtherHeadStays(s, hub, commit, s', d, c);
    NewRefsRaw(s, s', commit);
    ReachedStays(s, s', commit, e.commit, x);
    forall root | WouldMap(s', im, d, c, root) ensures InDag(x, root) { SameFilesSameDag(s, s', im, d, c, root); }
    assert HeldAt(s', im, d, c, e, blob, x);
  }

  lemma OtherHeadStays(s: State, hub: set<string>, commit: string, s': State, d: string, c: string)
    requires Ingest.IngestStep(s, s', commit, true) && c != commit && NewHead(s, hub, d, c)
    ensures NewHead(s', hub, d, c)
  {
    var id :| HeadIn(s, hub, id, d, c);
    assert HeadIn(s', hub, id, d, c);
  }

  lemma SameFilesSameDag(s: State, s': State, im: Importer, d: string, c: string, root: Cid)
    requires s'.disk == s.disk && s'.links == s.links && WouldMap(s', im, d, c, root)
    ensures WouldMap(s, im, d, c, root)
  {
    var fs :| WouldMapFiles(s', im, d, c, fs, root);
    assert WouldMapFiles(s, im, d, c, fs, root);
  }

  lemma NewRefsRaw(s: State, s': State, commit: string)
    requires Ingest.IngestStep(s, s', commit, true) && RefsRaw(s)
    ensures RefsRaw(s')
  {
    forall c | c in s'.refs && c !in s.refs ensures IsRaw(c) { assert RefLive(s'.disk, c, s'.refs[c]); }
  }

  /** An ingested revision reaches all of its DAG. */
  lemma MappedReaches(s: State, s': State, commit: string, x: Cid)
    requires Ingest.IngestStep(s, s', commit, true) && Honest(s) && RefsRaw(s')
    requires InDag(x, s'.mapping[commit].actual.value)
    ensures Evict.ReachedBy(s', commit, x)
  {
    Ingest.EnlargedKeeps(s, s'.(mapping := s.mapping));
    ServableIsWhole(s', s'.mapping[commit].actual.value);
    EvictLaws.DagIffReached(s', s'.mapping[commit].actual.value, x);
  }

  // ---- Pruning ----

  /** What one part of a scan guarantees when nothing fails on a node that is ready. */
  ghost predicate Advanced(s: State, hub: set<string>, im: Importer, s': State) {
    Ready(s', hub, im) && Progress(s, hub, s')
  }

  /** The heads in the directories of all entries that may be pruned are mapped. */
  ghost predicate MayPrune(s: State, hub: set<string>, repoId: string) {
    forall k | k in s.mapping && (repoId == "" || s.mapping[k].repoId == repoId) && !Kept(s, hub, s.mapping[k]) ::
      HeadsMapped(s, hub, EntryDir(s.mapping[k]))
  }

  /** Drops the mappings whose content is missing: those of one repository id, or all when the
      id is empty. A failed eviction is only logged. */
  method PruneOrphans(n: Node, hub: set<string>, ghost im: Importer, repoId: string, faults: Evict.Faults)
    requires Sound(n.View())
    modifies n
    ensures Sound(n.View()) && n.mapping.Keys <= old(n.mapping.Keys)
    ensures AllKept(old(n.View()), hub) ==> n.View() == old(n.View())
    ensures Ready(old(n.View()), hub, im) && MayPrune(old(n.View()), hub, repoId) && faults == Evict.NO_FAULTS ==>
      Advanced(old(n.View()), hub, im, n.View()) &&
      forall k | k in n.mapping && (repoId == "" || n.mapping[k].repoId == repoId) ::
        Kept(n.View(), hub, n.mapping[k])
  {
    ghost var s := n.View();
    ghost var good := Ready(s, hub, im) && MayPrune(s, hub, repoId) && faults == Evict.NO_FAULTS;
    var entries := n.mapping;
    var ks := Evict.List(entries);
    for i := 0 to |ks|
      invariant Sound(n.View()) && n.mapping.Keys <= entries.Keys && Untouched(entries, ks, i, n.View())
      invariant AllKept(s, hub) ==> n.View() == s
      invariant good ==> Ready(n.View(), hub, im) && PrunedTo(s, hub, repoId, entries, ks, i, n.View())
    {
      PruneNext(n, hub, im, repoId, entries, ks, i, s, faults, good);
    }
  }

  ghost predicate Distinct(ks: seq<string>) {
    forall i, j | 0 <= i < j < |ks| :: ks[i] != ks[j]
  }

  /** The entries from the i-th on are as they were. */
  ghost predicate Untouched(entries: map<string, Entry>, ks: seq<string>, i: nat, s': State) {
    forall j | i <= j < |ks| :: ks[j] in s'.mapping && ks[j] in entries && s'.mapping[ks[j]] == entries[ks[j]]
  }

  /** The entries of the id that are left are kept, but for those from the i-th on. */
  ghost predicate KeptTo(hub: set<string>, repoId: string, ks: seq<string>, i: nat, s': State) {
    forall k | k in s'.mapping && k !in ks[if i <= |ks| then i else 0..] &&
      (repoId == "" || s'.mapping[k].repoId == repoId) :: Kept(s', hub, s'.mapping[k])
  }

  /** The first i entries have been gone through. */
  ghost predicate PrunedTo(s: State, hub: set<string>, repoId: string, entries: map<string, Entry>, ks: seq<string>,
      i: nat, s': State)
  {
    Progress(s, hub, s') && KeptTo(hub, repoId, ks, i, s')
  }

  method PruneNext(n: Node, hub: set<string>, ghost im: Importer, repoId: string, entries: map<string, Entry>,
      ks: seq<string>, i: nat, ghost s: State, faults: Evict.Faults, ghost good: bool)
    requires Sound(n.View()) && i < |ks| && Distinct(ks) && Untouched(entries, ks, i, n.View())
    requires n.mapping.Keys <= entries.Keys
    requires AllKept(s, hub) ==> n.View() == s
    requires good ==> faults == Evict.NO_FAULTS && Ready(n.View(), hub, im) && Ready(s, hub, im)
    requires good ==> MayPrune(s, hub, repoId) && entries == s.mapping
    requires good ==> PrunedTo(s, hub, repoId, entries, ks, i, n.View())
    modifies n
    ensures Sound(n.View()) && n.mapping.Keys <= entries.Keys && Untouched(entries, ks, i + 1, n.View())
    ensures AllKept(s, hub) ==> n.View() == s
    ensures good ==> Ready(n.View(), hub, im) && PrunedTo(s, hub, repoId, entries, ks, i + 1, n.View())
  {
    var e := entries[ks[i]];
    assert ks[i..] == [ks[i]] + ks[i + 1..];
    if (repoId == "" || e.repoId == repoId) && !Kept(n.View(), hub, e) {
      ghost var s1 := n.View();
      if good { HeadsStayMapped(s, hub, im, EntryDir(e), s1); }
      PruneOne(n, hub, im, e, faults);
      assert !AllKept(s1, hub);
      if good {
        ProgressTwice(s, hub, s1, n.View());
        PrunedNext(hub, repoId, ks, i, s1, n.View());
      }
    }
  }

  lemma PrunedNext(hub: set<string>, repoId: string, ks: seq<string>, i: nat, s1: State, s2: State)
    requires i < |ks| && s2.mapping == s1.mapping - {ks[i]} && SameSnapshots(s1, s2)
    ensures KeptTo(hub, repoId, ks, i, s1) ==> KeptTo(hub, repoId, ks, i + 1, s2)
  {
    assert ks[i..] == [ks[i]] + ks[i + 1..];
  }

  method PruneOne(n: Node, hub: set<string>, ghost im: Importer, e: Entry, faults: Evict.Faults)
    requires Sound(n.View()) && Due(n.View(), hub, e)
    modifies n
    ensures Sound(n.View()) && (n.mapping == old(n.mapping) || n.mapping == old(n.mapping) - {e.commit})
    ensures Ready(old(n.View()), hub, im) && HeadsMapped(old(n.View()), hub, EntryDir(e)) && faults == Evict.NO_FAULTS
      ==> Advanced(old(n.View()), hub, im, n.View()) && n.mapping == old(n.mapping) - {e.commit}
  {
    ghost var s := n.View();
    if Ready(s, hub, im) && HeadsMapped(s, hub, EntryDir(e)) { PruneStep(s, hub, im, e); }
    var ok, _ := Evict.Commit(n, e, faults);
    EvictLaws.EvictionIsPartly(s, e);
  }

  // ---- Sharing ----

  /** Listed ids are told apart by their directories. */
  lemma ListedIsUnique(hub: set<string>, id: string, t: RepoType, id': string, t': RepoType)
    requires id in Repos(hub) && id' in Repos(hub) && (forall name | name in hub :: '/' !in name)
    requires RepoDirName(id, t) == RepoDirName(id', t')
    ensures id == id'
  {
    ListedIsDecodable(hub, id);
    ListedIsDecodable(hub, id');
    var m := if t.OtherType? then Model else t;
    var m' := if t'.OtherType? then Model else t';
    RepoDirNameInjective(id, m, id', m');
  }

  lemma ListedIsDecodable(hub: set<string>, id: string)
    requires id in Repos(hub) && forall name | name in hub :: '/' !in name
    ensures Decodable(id)
  {
    var name :| name in hub && RepoFromDirName(name).Some? && RepoFromDirName(name).value.0 == id;
    DirNameRoundTrip(name);
    RepoDirNameRoundTrip(id, RepoFromDirName(name).value.1);
  }

  /** The listed ids are those whose directory name reads back, for one of the three types. */
  lemma ListedIff(hub: set<string>, id: string)
    requires forall name | name in hub :: '/' !in name
    ensures id in Repos(hub) <==>
      Decodable(id) && exists t :: t in {Model, Dataset, Space} && RepoDirName(id, t) in hub
  {
    if id in Repos(hub) {
      ListedIsDecodable(hub, id);
      ListedHasDir(hub, id);
    }
    forall t | t in {Model, Dataset, Space} && Decodable(id) && RepoDirName(id, t) in hub ensures id in Repos(hub) {
      RepoDirNameRoundTrip(id, t);
    }
  }

  /** A repository without a head has none in any directory of its entries. */
  lemma HeadlessMayPrune(s: State, hub: set<string>, id: string)
    requires HubOf(s, hub) && id in Repos(hub) && forall k :: !IsHead(s, DirOf(hub, id), k)
    ensures MayPrune(s, hub, id)
  {
    forall k, other, head | k in s.mapping && s.mapping[k].repoId == id
      ensures !HeadIn(s, hub, other, EntryDir(s.mapping[k]), head)
    {
      if other in Repos(hub) && DirOf(hub, other) == EntryDir(s.mapping[k]) {
        ListedIsUnique(hub, id, s.mapping[k].repoType, other, TypeOnDisk(hub, other));
      }
    }
  }

  /** Shares what a repository has finalized, or prunes what it has lost. */
  method TryIngest(n: Node, hub: set<string>, id: string, im: Importer, faults: Evict.Faults)
    requires Sound(n.View()) && Usable(im)
    modifies n
    ensures Sound(n.View())
    ensures Ready(old(n.View()), hub, im) && id in Repos(hub) && faults == Evict.NO_FAULTS ==>
      Tried(old(n.View()), hub, im, id, n.View())
  {
    ghost var s := n.View();
    var dir := DirOf(hub, id);
    if (dir, MAIN) !in n.heads || !ValidCommit(n.heads[(dir, MAIN)]) {
      if Ready(s, hub, im) && id in Repos(hub) { HeadlessMayPrune(s, hub, id); }
      PruneOrphans(n, hub, im, id, faults);
      return;
    }
    var commit := n.heads[(dir, MAIN)];
    assert IsHead(n.View(), dir, commit);
    if commit in n.mapping {
      if !Complete(n.View(), dir, commit) { PruneLost(n, hub, im, id, commit, faults); }
      return;
    }
    if Complete(n.View(), dir, commit) { ShareHead(n, hub, id, commit, im); }
  }

  /** The head of the repository is mapped if it is finalized, what has lost its content is not,
      and nothing has changed if everything was settled. */
  ghost predicate Tried(s: State, hub: set<string>, im: Importer, id: string, s': State) {
    && Advanced(s, hub, im, s') && (Settled(s, hub) ==> s' == s)
    && (forall k | HeadOf(s, hub, id, k) :: k in s'.mapping)
    && LostIsGone(s, hub, id, s')
  }

  /** If the head is mapped, its content is there; without a head that holds of every revision of
      the repository. */
  ghost predicate LostIsGone(s: State, hub: set<string>, id: string, s': State) {
    forall k | k in s'.mapping && (IsHead(s, DirOf(hub, id), k) ||
      (s'.mapping[k].repoId == id && forall head :: !IsHead(s, DirOf(hub, id), head))) ::
      Kept(s', hub, s'.mapping[k])
  }

  /** Evicts the mapped head of a repository whose content has vanished. */
  method PruneLost(n: Node, hub: set<string>, ghost im: Importer, id: string, commit: string, faults: Evict.Faults)
    requires Sound(n.View()) && IsHead(n.View(), DirOf(hub, id), commit)
    requires commit in n.mapping && !Complete(n.View(), DirOf(hub, id), commit)
    modifies n
    ensures Sound(n.View())
    ensures Ready(old(n.View()), hub, im) && id in Repos(hub) && faults == Evict.NO_FAULTS ==>
      Tried(old(n.View()), hub, im, id, n.View())
  {
    ghost var s := n.View();
    var e := n.mapping[commit];
    if Ready(s, hub, im) && id in Repos(hub) {
      assert EntryDir(e) == DirOf(hub, id) && Due(s, hub, e) && HeadsMapped(s, hub, EntryDir(e));
      PruneStep(s, hub, im, e);
    }
    var ok, _ := Evict.Commit(n, e, faults);
    EvictLaws.EvictionIsPartly(s, e);
  }

  lemma HeadShared(s: State, hub: set<string>, im: Importer, id: string, commit: string, s': State, ok: bool)
    requires Ready(s, hub, im) && id in Repos(hub) && commit !in s.mapping
    requires IsHead(s, DirOf(hub, id), commit) && Complete(s, DirOf(hub, id), commit)
    requires Ingest.IngestStep(s, s', commit, ok)
    requires !Shareable(s, DirOf(hub, id), commit) ==> s' == s && !ok
    requires Shareable(s, DirOf(hub, id), commit) ==> ok
    requires ok ==> EntryDir(s'.mapping[commit]) == DirOf(hub, id)
    requires ok ==> WouldMap(s, im, DirOf(hub, id), commit, s'.mapping[commit].actual.value)
    ensures Tried(s, hub, im, id, s')
  {
    forall k | HeadOf(s, hub, id, k) ensures k == commit && ok {}
    if ok {
      ShareStep(s, hub, im, id, commit, s');
      if Shareable(s, DirOf(hub, id), commit) { NotSettled(s, hub, id, commit); }
    } else {
      ProgressSelf(s, hub);
    }
  }

  lemma NotSettled(s: State, hub: set<string>, id: string, commit: string)
    requires id in Repos(hub) && HeadOf(s, hub, id, commit) && commit !in s.mapping
    ensures !Settled(s, hub)
  {
    assert FinalHead(s, hub, commit);
  }

  lemma ProgressSelf(s: State, hub: set<string>)
    ensures Progress(s, hub, s)
  {
  }

  /** Ingests a finalized snapshot that is not mapped yet. */
  method ShareHead(n: Node, hub: set<string>, id: string, commit: string, im: Importer)
    requires Sound(n.View()) && Usable(im) && commit !in n.mapping
    requires IsHead(n.View(), DirOf(hub, id), commit) && Complete(n.View(), DirOf(hub, id), commit)
    modifies n
    ensures Sound(n.View())
    ensures Ready(old(n.View()), hub, im) && id in Repos(hub) ==> Tried(old(n.View()), hub, im, id, n.View())
  {
    ghost var s := n.View();
    var ok := IngestRevision(n, id, TypeOnDisk(hub, id), commit, im);
    if Ready(s, hub, im) && id in Repos(hub) { HeadShared(s, hub, im, id, commit, n.View(), ok); }
  }

  // ---- The scan ----

  /** The ids listed, in some order, one for each directory. */
  method ListRepos(hub: set<string>) returns (ids: seq<string>)
    ensures forall id :: id in ids <==> id in Repos(hub)
  {
    ids := [];
    var todo := hub;
    while todo != {}
      invariant todo <= hub
      invariant forall id :: id in ids <==> id in Repos(hub - todo)
    {
      var name :| name in todo;
      var repo := RepoFromDirName(name);
      ghost var seen := hub - todo;
      todo := todo - {name};
      assert hub - todo == seen + {name};
      if repo.Some? { ids := ids + [repo.value.0]; }
    }
    assert hub - todo == hub;
  }

  /** One pass over the hub directory. On a node that is ready, with no failing step, it reaches a
      fixed point: afterwards a commit is mapped exactly when it was mapped with its content in
      the cache, or is the finalized head of a listed repository; and a pass over a settled node
      changes nothing. */
  method Scan(n: Node, hub: set<string>, im: Importer, faults: Evict.Faults)
    requires Sound(n.View()) && Usable(im)
    modifies n
    ensures Sound(n.View())
    ensures Ready(old(n.View()), hub, im) && faults == Evict.NO_FAULTS ==> Scanned(old(n.View()), hub, im, n.View())
    ensures Ready(old(n.View()), hub, im) && faults == Evict.NO_FAULTS ==>
      forall id, commit | id in Repos(hub) && (DirOf(hub, id), "main") in old(n.heads)
        && old(n.heads)[(DirOf(hub, id), "main")] == commit && ValidCommit(commit)
        && Shareable(old(n.View()), DirOf(hub, id), commit) ::
        commit in n.mapping
    ensures Ready(old(n.View()), hub, im) && faults == Evict.NO_FAULTS ==>
      forall k | k in old(n.mapping) && !FinalHead(old(n.View()), hub, k) ::
        var dir := RepoDirName(old(n.mapping)[k].repoId, old(n.mapping)[k].repoType);
        if dir in hub && SnapshotComplete(old(n.disk), old(n.links), dir, old(n.mapping)[k].commit)
        then k in n.mapping && n.mapping[k] == old(n.mapping)[k] else k !in n.mapping
  {
    ghost var s := n.View();
    ghost var good := Ready(s, hub, im) && faults == Evict.NO_FAULTS;
    var ids := ListRepos(hub);
    for i := 0 to |ids|
      invariant Sound(n.View())
      invariant good ==> Ready(n.View(), hub, im) && ScannedTo(s, hub, ids, i, n.View())
    {
      assert ids[i] in ids;
      ghost var s1 := n.View();
      TryIngest(n, hub, ids[i], im, faults);
      if good { ScannedNext(s, hub, im, ids, i, s1, n.View()); }
    }
    ghost var s1 := n.View();
    if good { AllMayPrune(s, hub, im, ids, s1); }
    PruneOrphans(n, hub, im, "", faults);
    if good { ScanEnds(s, hub, im, ids, s1, n.View()); }
  }

  ghost predicate Scanned(s: State, hub: set<string>, im: Importer, s': State) {
    && Advanced(s, hub, im, s') && Settled(s', hub) && (Settled(s, hub) ==> s' == s)
    && (forall k :: k in s'.mapping <==> (k in s.mapping && Kept(s, hub, s.mapping[k])) || FinalHead(s, hub, k))
    && (forall k | k in s'.mapping && k in s.mapping && Kept(s, hub, s.mapping[k]) :: s'.mapping[k] == s.mapping[k])
  }

  /** The heads of the first i repositories are mapped. */
  ghost predicate ScannedTo(s: State, hub: set<string>, ids: seq<string>, i: nat, s': State) {
    && Progress(s, hub, s')
    && (Settled(s, hub) ==> s' == s)
    && (forall j, k | 0 <= j < i <= |ids| && HeadOf(s, hub, ids[j], k) :: k in s'.mapping)
  }

  lemma ScannedNext(s: State, hub: set<string>, im: Importer, ids: seq<string>, i: nat, s1: State, s2: State)
    requires i < |ids| && (forall id | id in ids :: id in Repos(hub))
    requires Ready(s1, hub, im) && ScannedTo(s, hub, ids, i, s1)
    requires Advanced(s1, hub, im, s2) && (Settled(s1, hub) ==> s2 == s1)
    requires forall k | HeadOf(s1, hub, ids[i], k) :: k in s2.mapping
    ensures ScannedTo(s, hub, ids, i + 1, s2)
  {
    ProgressTwice(s, hub, s1, s2);
    forall j, k | 0 <= j < i + 1 && HeadOf(s, hub, ids[j], k) ensures k in s2.mapping {
      HeadNext(s, hub, im, ids, i, s1, s2, j, k);
    }
  }

  lemma HeadNext(s: State, hub: set<string>, im: Importer, ids: seq<string>, i: nat, s1: State, s2: State, j: nat,
      k: string)
    requires j <= i < |ids| && (forall id | id in ids :: id in Repos(hub))
    requires Ready(s1, hub, im) && ScannedTo(s, hub, ids, i, s1) && Progress(s1, hub, s2)
    requires forall x | HeadOf(s1, hub, ids[i], x) :: x in s2.mapping
    requires HeadOf(s, hub, ids[j], k)
    ensures k in s2.mapping
  {
    if j < i { MappedHeadStays(s, hub, im, ids, i, s1, s2, j, k); } else { SameFinalHeads(s, hub, s1, k); }
  }

  lemma MappedHeadStays(s: State, hub: set<string>, im: Importer, ids: seq<string>, i: nat, s1: State, s2: State,
      j: nat, k: string)
    requires j < i < |ids| && (forall id | id in ids :: id in Repos(hub))
    requires Ready(s1, hub, im) && ScannedTo(s, hub, ids, i, s1) && Progress(s1, hub, s2)
    requires HeadOf(s, hub, ids[j], k)
    ensures k in s2.mapping
  {
    SameFinalHeads(s, hub, s1, k);
    assert ids[j] in ids;
    HeadEntryKept(s1, hub, im, ids[j], k);
  }

  /** Once all heads are mapped, anything may be pruned. */
  lemma AllMayPrune(s: State, hub: set<string>, im: Importer, ids: seq<string>, s1: State)
    requires (forall id | id in Repos(hub) :: id in ids) && Ready(s1, hub, im) && ScannedTo(s, hub, ids, |ids|, s1)
    ensures MayPrune(s1, hub, "")
  {
    forall id, dir, k | HeadIn(s1, hub, id, dir, k) ensures k in s1.mapping {
      SameFinalHeads(s, hub, s1, k);
      var j :| 0 <= j < |ids| && ids[j] == id;
    }
  }

  lemma ScanEnds(s: State, hub: set<string>, im: Importer, ids: seq<string>, s1: State, s2: State)
    requires (forall id | id in Repos(hub) :: id in ids) && Ready(s1, hub, im) && ScannedTo(s, hub, ids, |ids|, s1)
    requires Advanced(s1, hub, im, s2) && (AllKept(s1, hub) ==> s2 == s1) && AllKept(s2, hub)
    ensures Scanned(s, hub, im, s2)
  {
    ProgressTwice(s, hub, s1, s2);
    forall k | FinalHead(s, hub, k) ensures k in s2.mapping {
      var id :| id in Repos(hub) && HeadOf(s, hub, id, k);
      SameFinalHeads(s, hub, s1, k);
      var j :| 0 <= j < |ids| && ids[j] == id;
      HeadEntryKept(s1, hub, im, id, k);
    }
    forall k ensures FinalHead(s, hub, k) <==> FinalHead(s2, hub, k) { SameFinalHeads(s, hub, s2, k); }
    forall k | k in s2.mapping && k in s.mapping && s2.mapping[k] == s.mapping[k] ensures Kept(s, hub, s.mapping[k]) {
      assert Kept(s2, hub, s2.mapping[k]);
    }
  }
}
