/** A pull from end to end: which source is tried when, what is reported, and what a report of
    success means. */
module PullRun {
  import opened Content
  import opened Dummy
  import opened Names
  import opened Store
  import opened Snapshot
  import opened Share
  import opened Pull
  import opened PullOne
  import opened Remote
  import opened Runs
  import Fallback
  import FileLaws
  import Reconstruct

  // ---- Events ----

  datatype Event = Progress | Done | Error

  /** The event stream of one control connection. */
  class Conn {
    var sent: seq<Event>

    constructor ()
      ensures sent == []
    {
      sent := [];
    }

    method Emit(e: Event)
      modifies this
      ensures sent == old(sent) + [e]
      ensures forall b :: Quiet(b, old(sent)) ==> EndsWith(b, sent, e)
      ensures e == Progress ==> forall b :: Quiet(b, old(sent)) ==> Quiet(b, sent)
    {
      forall b | Quiet(b, sent) ensures EndsWith(b, sent + [e], e) && (e == Progress ==> Quiet(b, sent + [e])) {
        EmitNext(b, sent, e);
      }
      sent := sent + [e];
    }
  }

  predicate OnlyProgress(es: seq<Event>) {
    forall e | e in es :: e == Progress
  }

  /** Nothing but progress was reported since. */
  predicate Quiet(before: seq<Event>, after: seq<Event>) {
    before <= after && OnlyProgress(after[|before|..])
  }

  /** The last thing reported since is e, and everything before it is progress. */
  predicate EndsWith(before: seq<Event>, after: seq<Event>, e: Event) {
    |before| < |after| && Quiet(before, after[..|after| - 1]) && after[|after| - 1] == e
  }

  /** Progress after progress is progress, and one event more ends the report. */
  lemma EmitNext(before: seq<Event>, mid: seq<Event>, e: Event)
    requires Quiet(before, mid)
    ensures EndsWith(before, mid + [e], e)
    ensures e == Progress ==> Quiet(before, mid + [e])
  {
    assert (mid + [e])[..|mid|] == mid;
    assert (mid + [e])[|before|..] == mid[|before|..] + [e];
  }

  lemma QuietTwice(before: seq<Event>, mid: seq<Event>, after: seq<Event>)
    requires Quiet(before, mid)
    ensures Quiet(mid, after) ==> Quiet(before, after)
    ensures forall e | EndsWith(mid, after, e) :: EndsWith(before, after, e)
  {
    if Quiet(mid, after) { QuietJoin(before, mid, after); }
    if mid <= after && |mid| < |after| {
      var most := after[..|after| - 1];
      if Quiet(mid, most) { QuietJoin(before, mid, most); }
    }
  }

  lemma QuietJoin(before: seq<Event>, mid: seq<Event>, after: seq<Event>)
    requires Quiet(before, mid) && Quiet(mid, after)
    ensures Quiet(before, after)
  {
    assert after == mid + after[|mid|..];
    assert after[|before|..] == mid[|before|..] + after[|mid|..];
  }

  // ---- Peers ----

  /** A candidate: its answer to the map query, None when it cannot be asked, and how it serves
      blocks. */
  datatype Provider = Provider(response: Option<MapResponse>, answers: (nat, Cid) -> Answer, suffix: string,
      faults: Reconstruct.Faults, announced: bool)

  /** What the network offers: the peers named by the caller, None where dialing fails; the peers
      only asked to join the DHT; and the providers found there. */
  datatype Swarm = Swarm(peers: seq<Option<Provider>>, connects: seq<bool>, tableEmpty: bool,
      found: Option<seq<Provider>>, budget: nat)

  /** The revision is mapped, and its snapshot is complete or leads to every mapped file. */
  predicate Available(s: State, repoDir: string, commit: string) {
    commit in s.mapping &&
    (SnapshotComplete(s.disk, s.links, repoDir, commit) ||
     forall f | f in s.mapping[commit].files :: Source(s.disk, s.links, LinkPath(repoDir, commit, f)).Some?)
  }

  /** It is available, and the ref is at it. */
  ghost predicate Landed(s: State, repoDir: string, ref: string, commit: string) {
    Available(s, repoDir, commit) && RefNames(s.heads, repoDir, ref, commit)
  }

  lemma LinkedIsAvailable(s: State, links: map<Path, seq<string>>, repoId: string, t: RepoType, commit: string)
    requires commit in s.mapping && AllPlaced(s.disk, RepoDirName(repoId, t), s.mapping[commit].files)
    requires s.links == LinksAfter(links, RepoDirName(repoId, t), commit, s.mapping[commit].files)
    ensures Available(s, RepoDirName(repoId, t), commit)
  {
    Fallback.DirIsSegment(repoId, t);
    forall f | f in s.mapping[commit].files
      ensures Source(s.disk, s.links, LinkPath(RepoDirName(repoId, t), commit, f)).Some?
    {
      WrittenLeadToBlobs(links, s.disk, RepoDirName(repoId, t), commit, s.mapping[commit].files, f);
    }
  }

  lemma SharedIsAvailable(s: State, repoId: string, t: RepoType, commit: string)
    requires IsShared(s, repoId, t, commit)
    ensures Available(s, RepoDirName(repoId, t), commit)
  {
  }

  datatype Tried = Unusable | Aborted | Delivered

  /** No reference leads into the snapshot directory of the revision. */
  ghost predicate NoneUnder(s: State, repoDir: string, commit: string) {
    forall c | c in s.refs :: !Under(repoDir, commit, s.refs[c].path)
  }

  /** All that a pull may come to write: the files of every manifest that may be pulled, the
      suffixes of their temporary names, and what the Hub lists. */
  datatype Plan = Plan(all: seq<FileManifest>, suffixes: set<string>, listed: seq<FileManifest>, hubSuffix: string)

  /** Where a manifest and the list name the same blob they mean the same length, and the temporary
      names of one are no blob names of the other. */
  ghost predicate Agreeing(repoDir: string, plan: Plan) {
    forall f, g | f in plan.all && g in plan.listed ::
      && (f.blobName == g.blobName ==> f.size == g.size)
      && BlobOf(repoDir, f) != Fallback.TempPath(repoDir, g, plan.hubSuffix)
      && forall x | x in plan.suffixes :: Reconstruct.PartPath(repoDir, f.blobName, x) != BlobOf(repoDir, g)
  }

  /** What keeps references live over any number of attempts: a blob name stands for one content
      in all manifests together, no blob of theirs is referenced for other content, no temporary
      name is one of their blob names, and no place of a link is referenced. */
  ghost predicate GuardedAll(s: State, repoDir: string, commit: string, plan: Plan) {
    && NoneUnder(s, repoDir, commit) && (forall x | x in plan.suffixes :: Guarded(s, repoDir, plan.all, x))
    && Agreeing(repoDir, plan) && Fallback.NamesAgree(repoDir, plan.listed, plan.hubSuffix)
    && Fallback.NoneOverwritten(s, repoDir, plan.listed, plan.hubSuffix)
  }

  /** The provider's manifest is one of them. */
  ghost predicate Among(p: Provider, commit: string, plan: Plan) {
    p.suffix in plan.suffixes &&
    (p.response.Some? && Acceptable(commit, p.response.value) ==>
       forall f | f in p.response.value.files :: f in plan.all)
  }

  /** Every blob of the mapped manifest has the content it describes. */
  ghost predicate AllBlobsDone(s: State, repoDir: string, commit: string) {
    commit in s.mapping && forall f | f in s.mapping[commit].files :: BlobDone(s, repoDir, f)
  }

  // ---- What is done and what stands in the snapshot ----

  /** Only pulls and links were added to the run. */
  ghost predicate OnlyPeers(run: Run, run': Run) {
    run.ops <= run'.ops && forall i | |run.ops| <= i < |run'.ops| :: run'.ops[i].PullOp? || run'.ops[i].LinkOp?
  }

  /** A successful pull of the commit is among what was added. */
  ghost predicate HasPulled(run: Run, run': Run, commit: string) {
    exists i :: |run.ops| <= i < |run'.ops| && PulledAt(run', i, commit)
  }

  ghost predicate PulledAt(run: Run, i: nat, commit: string) {
    i < |run.ops| && run.ops[i].PullOp? && run.ops[i].ok && run.ops[i].commit == commit
  }

  /** The places of the links of the provider's manifest. */
  ghost function Places(p: Provider, repoDir: string, commit: string): set<Path> {
    if p.response.Some? && Acceptable(commit, p.response.value)
    then LinkSet(repoDir, commit, p.response.value.files) else {}
  }

  ghost function Entered(s: State, repoDir: string, commit: string): set<Path> {
    SnapshotEntries(s.disk, s.links, repoDir, commit)
  }

  /** Nothing in the snapshot is in the way of the provider's manifest, and its temporary names are
      no blob names. */
  ghost predicate Linkable(s: State, repoDir: string, commit: string, p: Provider) {
    p.response.Some? && Acceptable(commit, p.response.value) ==>
      && TempNamesFree(repoDir, p.response.value.files, p.suffix)
      && forall f | f in p.response.value.files ::
        !Blocked(Entered(s, repoDir, commit) + Places(p, repoDir, commit), repoDir, commit, f.path)
  }

  /** A pull changes nothing in a snapshot. */
  lemma PullEntersNothing(s: State, s': State, repoId: string, t: RepoType, commit: string, resp: MapResponse,
      suffix: string, unstored: set<Cid>, ok: bool, halt: Halt)
    requires PullStep(s, s', repoId, t, commit, resp, suffix, unstored, ok, halt)
    ensures Entered(s', RepoDirName(repoId, t), commit) == Entered(s, RepoDirName(repoId, t), commit)
  {
    if Acceptable(commit, resp) {
      var dir := RepoDirName(repoId, t);
      forall p | Under(dir, commit, p) ensures p in s.disk <==> p in s'.disk {
        assert Foreign(dir, resp.files, suffix, p);
        assert SameFile(s.disk, s'.disk, p);
      }
    }
  }

  /** After a successful pull a linkable manifest can be placed. */
  lemma PulledIsPlaceable(s: State, s': State, repoId: string, t: RepoType, commit: string, p: Provider, halt: Halt)
    requires p.response.Some? && Acceptable(commit, p.response.value)
    requires PullStep(s, s', repoId, t, commit, p.response.value, p.suffix, p.faults.unstored, true, halt)
    requires Linkable(s, RepoDirName(repoId, t), commit, p)
    ensures Placeable(s', RepoDirName(repoId, t), commit, p.response.value.files)
  {
    var dir, files := RepoDirName(repoId, t), p.response.value.files;
    PullEntersNothing(s, s', repoId, t, commit, p.response.value, p.suffix, p.faults.unstored, true, halt);
    AllThere(s, s'.(mapping := s.mapping), dir, files);
    forall f | f in files
      ensures !Blocked(s'.disk.Keys + s'.links.Keys + LinkSet(dir, commit, files), dir, commit, f.path)
    {
      if Blocked(s'.disk.Keys + s'.links.Keys + LinkSet(dir, commit, files), dir, commit, f.path) {
        BlockedByEntries(s'.disk, s'.links, dir, commit, LinkSet(dir, commit, files), f.path);
      }
    }
  }

  // ---- One provider ----

  /** Pulls from one provider and links the result. What it does extends the run. */
  method TryProvider(n: Node, conn: Conn, repoId: string, t: RepoType, commit: string, ref: string, p: Provider,
      budget: nat, ghost plan: Plan, ghost s: State, ghost run: Run)
    returns (r: Tried, ghost run': Run)
    requires Honest(n.View()) && Leads(s, run, n.View())
    modifies n, conn
    ensures Honest(n.View()) && Leads(s, run', n.View())
    ensures if r.Delivered? then EndsWith(old(conn.sent), conn.sent, Done) else Quiet(old(conn.sent), conn.sent)
    ensures r.Delivered? ==> Landed(n.View(), RepoDirName(repoId, t), ref, commit)
    ensures Helpful(p, commit, budget) ==> !r.Unusable?
    ensures Linkable(old(n.View()), RepoDirName(repoId, t), commit, p) ==> !r.Aborted?
    ensures OnlyPeers(run, run') && (!r.Unusable? ==> HasPulled(run, run', commit))
    ensures Enters(old(n.View()), n.View(), RepoDirName(repoId, t), commit, p, r)
    ensures Tended(old(n.View()), n.View(), RepoDirName(repoId, t), commit, p, plan, r)
  {
    run' := run;
    if p.response.None? || !Acceptable(commit, p.response.value) {
      conn.Emit(Progress);
      return Unusable, run';
    }
    r, run' := PullAndLink(n, conn, repoId, t, commit, ref, p, budget, plan, s, run);
  }

  /** The same once the answer is accepted. */
  method PullAndLink(n: Node, conn: Conn, repoId: string, t: RepoType, commit: string, ref: string, p: Provider,
      budget: nat, ghost plan: Plan, ghost s: State, ghost run: Run)
    returns (r: Tried, ghost run': Run)
    requires p.response.Some? && Acceptable(commit, p.response.value)
    requires Honest(n.View()) && Leads(s, run, n.View())
    modifies n, conn
    ensures Honest(n.View()) && Leads(s, run', n.View())
    ensures if r.Delivered? then EndsWith(old(conn.sent), conn.sent, Done) else Quiet(old(conn.sent), conn.sent)
    ensures r.Delivered? ==> Landed(n.View(), RepoDirName(repoId, t), ref, commit)
    ensures Helpful(p, commit, budget) ==> !r.Unusable?
    ensures Linkable(old(n.View()), RepoDirName(repoId, t), commit, p) ==> !r.Aborted?
    ensures OnlyPeers(run, run') && (!r.Unusable? ==> HasPulled(run, run', commit))
    ensures Enters(old(n.View()), n.View(), RepoDirName(repoId, t), commit, p, r)
    ensures Tended(old(n.View()), n.View(), RepoDirName(repoId, t), commit, p, plan, r)
  {
    conn.Emit(Progress);
    var ok;
    ok, run' := Attempt(n, repoId, t, commit, p, budget, plan, s, run);
    if !ok {
      conn.Emit(Progress);
      return Unusable, run';
    }
    ghost var s1, run1 := n.View(), run';
    if !p.announced { conn.Emit(Progress); }
    ok, run' := LinkMapped(n, repoId, t, commit, ref, plan, s, run');
    StillPulled(run, run1, run', commit);
    r := if ok then Delivered else Aborted;
    LinkedEnters(old(n.View()), s1, n.View(), RepoDirName(repoId, t), commit, p, r);
    LinkedIsTended(old(n.View()), s1, n.View(), RepoDirName(repoId, t), commit, p, plan, r);
    if ok { conn.Emit(Done); }
  }

  /** Only the places of the provider's links were entered, and none when it was unusable. */
  ghost predicate Enters(s: State, s': State, repoDir: string, commit: string, p: Provider, r: Tried) {
    && Entered(s', repoDir, commit) <= Entered(s, repoDir, commit) + Places(p, repoDir, commit)
    && (r.Unusable? ==> Entered(s', repoDir, commit) == Entered(s, repoDir, commit))
  }

  lemma LinkedEnters(s: State, s1: State, s': State, repoDir: string, commit: string, p: Provider, r: Tried)
    requires p.response.Some? && Acceptable(commit, p.response.value) && !r.Unusable?
    requires Entered(s1, repoDir, commit) == Entered(s, repoDir, commit)
    requires Entered(s', repoDir, commit) <=
      Entered(s1, repoDir, commit) + LinkSet(repoDir, commit, p.response.value.files)
    ensures Enters(s, s', repoDir, commit, p, r)
  {
  }

  lemma LinkedIsTended(s: State, s1: State, s': State, repoDir: string, commit: string, p: Provider, plan: Plan,
      r: Tried)
    requires Attempted(s, s1, repoDir, commit, p, plan, true) && StillTended(s1, s', repoDir, commit, plan)
    ensures Tended(s, s', repoDir, commit, p, plan, r)
  {
  }

  method Attempt(n: Node, repoId: string, t: RepoType, commit: string, p: Provider, budget: nat,
      ghost plan: Plan, ghost s: State, ghost run: Run)
    returns (ok: bool, ghost run': Run)
    requires p.response.Some? && Acceptable(commit, p.response.value)
    requires Honest(n.View()) && Leads(s, run, n.View())
    modifies n
    ensures Honest(n.View()) && Leads(s, run', n.View())
    ensures ok ==> commit in n.mapping && n.mapping[commit].files == p.response.value.files
    ensures Helpful(p, commit, budget) ==> ok
    ensures |run'.ops| == |run.ops| + 1 && OnlyPeers(run, run') && (ok ==> HasPulled(run, run', commit))
    ensures Entered(n.View(), RepoDirName(repoId, t), commit) == Entered(old(n.View()), RepoDirName(repoId, t), commit)
    ensures ok && Linkable(old(n.View()), RepoDirName(repoId, t), commit, p)
      ==> Placeable(n.View(), RepoDirName(repoId, t), commit, p.response.value.files)
    ensures Attempted(old(n.View()), n.View(), RepoDirName(repoId, t), commit, p, plan, ok)
  {
    ghost var s0, halt := n.View(), AT_START;
    var peer := new Peer(p.answers);
    var state := new Reconstruct.Transfer();
    ok, halt := PullFrom(n, repoId, t, commit, p.response.value, peer, state, budget, p.suffix, p.faults);
    ghost var op := PullOp(repoId, t, commit, p.response.value, p.suffix, p.faults.unstored, ok, halt);
    ThenLeads(s, run, s0, op, n.View());
    run' := Then(run, op, n.View());
    AttemptTended(s0, n.View(), repoId, t, commit, p, plan, ok, halt);
    PullEntersNothing(s0, n.View(), repoId, t, commit, p.response.value, p.suffix, p.faults.unstored, ok, halt);
    if ok {
      assert PulledAt(run', |run.ops|, commit);
      if Linkable(s0, RepoDirName(repoId, t), commit, p) {
        PulledIsPlaceable(s0, n.View(), repoId, t, commit, p, halt);
      }
    }
  }

  lemma StillPulled(run: Run, run1: Run, run': Run, commit: string)
    requires OnlyPeers(run, run1) && OnlyPeers(run1, run')
    ensures OnlyPeers(run, run') && (HasPulled(run, run1, commit) ==> HasPulled(run, run', commit))
    ensures HasPulled(run1, run', commit) ==> HasPulled(run, run', commit)
  {
    if HasPulled(run, run1, commit) {
      var i :| |run.ops| <= i < |run1.ops| && PulledAt(run1, i, commit);
      assert PulledAt(run', i, commit);
    }
  }

  ghost predicate Attempted(s: State, s': State, repoDir: string, commit: string, p: Provider, plan: Plan, ok: bool) {
    Among(p, commit, plan) && GuardedAll(s, repoDir, commit, plan) ==>
      && (RefsLive(s) ==> RefsLive(s')) && GuardedAll(s', repoDir, commit, plan)
      && (ok ==> AllBlobsDone(s', repoDir, commit))
  }

  /** An attempt keeps references live, leaves the guard for the next one in place, and delivers
      the described contents. */
  ghost predicate Tended(s: State, s': State, repoDir: string, commit: string, p: Provider, plan: Plan, r: Tried) {
    Among(p, commit, plan) && GuardedAll(s, repoDir, commit, plan) ==>
      && (RefsLive(s) ==> RefsLive(s')) && GuardedAll(s', repoDir, commit, plan)
      && (r.Delivered? ==> AllBlobsDone(s', repoDir, commit))
  }

  lemma AttemptTended(s: State, s': State, repoId: string, t: RepoType, commit: string, p: Provider, plan: Plan,
      ok: bool, halt: Halt)
    requires p.response.Some? && Acceptable(commit, p.response.value) && Honest(s)
    requires PullStep(s, s', repoId, t, commit, p.response.value, p.suffix, p.faults.unstored, ok, halt)
    ensures Attempted(s, s', RepoDirName(repoId, t), commit, p, plan, ok)
  {
    if Among(p, commit, plan) && GuardedAll(s, RepoDirName(repoId, t), commit, plan) {
      forall x | x in plan.suffixes
        ensures Guarded(s', RepoDirName(repoId, t), plan.all, x) && (RefsLive(s) ==> RefsLive(s'))
      {
        PullKeepsGuard(s, s', repoId, t, commit, p.response.value, p.suffix, p.faults.unstored, ok, halt, plan.all, x);
      }
      assert Guarded(s, RepoDirName(repoId, t), plan.all, p.suffix);
      PullFacts(s, s', repoId, t, commit, p.response.value, p.suffix, p.faults.unstored, ok, halt);
      AttemptKeepsPlaces(s, s', RepoDirName(repoId, t), commit, p.response.value.files, p.suffix, plan);
    }
  }

  /** References come into blobs of the manifest only, and into these only once they are right. */
  lemma AttemptKeepsPlaces(s: State, s': State, repoDir: string, commit: string, files: seq<FileManifest>,
      suffix: string, plan: Plan)
    requires RefsTo(s, s', repoDir, files, |files|) && FilesTo(s, s', repoDir, files, suffix)
    requires BlobsSound(s, s', repoDir, files)
    requires GuardedAll(s, repoDir, commit, plan) && suffix in plan.suffixes && forall f | f in files :: f in plan.all
    ensures NoneUnder(s', repoDir, commit) && Fallback.NoneOverwritten(s', repoDir, plan.listed, plan.hubSuffix)
  {
    forall c, g | c in s'.refs && g in plan.listed
      ensures s'.refs[c].path != Fallback.TempPath(repoDir, g, plan.hubSuffix)
      ensures s'.refs[c].path == BlobOf(repoDir, g) ==> Fallback.HasSize(s'.disk, repoDir, g)
    {
      if IntoBlob(repoDir, files, |files|, s'.refs[c].path) {
        NewPlace(s, s', repoDir, files, suffix, plan, c, g);
      } else {
        OldPlace(s, s', repoDir, commit, files, suffix, plan, c, g);
      }
    }
  }

  /** A reference from before lies right for the list still. */
  lemma OldPlace(s: State, s': State, repoDir: string, commit: string, files: seq<FileManifest>, suffix: string,
      plan: Plan, c: Cid, g: FileManifest)
    requires FilesTo(s, s', repoDir, files, suffix) && BlobsSound(s, s', repoDir, files)
    requires GuardedAll(s, repoDir, commit, plan) && suffix in plan.suffixes && forall f | f in files :: f in plan.all
    requires c in s'.refs && c in s.refs && s'.refs[c] == s.refs[c] && g in plan.listed
    ensures s'.refs[c].path != Fallback.TempPath(repoDir, g, plan.hubSuffix)
    ensures s'.refs[c].path == BlobOf(repoDir, g) ==> Fallback.HasSize(s'.disk, repoDir, g)
  {
    if s'.refs[c].path == BlobOf(repoDir, g) {
      OldBlobKeepsSize(s, s', repoDir, commit, files, suffix, plan, g);
    }
  }

  /** A reference into a blob of the manifest lies right for the list too. */
  lemma NewPlace(s: State, s': State, repoDir: string, files: seq<FileManifest>, suffix: string, plan: Plan, c: Cid,
      g: FileManifest)
    requires BlobsSound(s, s', repoDir, files) && Agreeing(repoDir, plan) && Guarded(s, repoDir, plan.all, suffix)
    requires suffix in plan.suffixes && (forall f | f in files :: f in plan.all) && g in plan.listed
    requires c in s'.refs && IntoBlob(repoDir, files, |files|, s'.refs[c].path)
    ensures s'.refs[c].path != Fallback.TempPath(repoDir, g, plan.hubSuffix)
    ensures s'.refs[c].path == BlobOf(repoDir, g) ==> Fallback.HasSize(s'.disk, repoDir, g)
  {
    var j :| 0 <= j < |files| && s'.refs[c].path == BlobOf(repoDir, files[j]) && files[j].size != 0;
    assert files[j] in files;
    IntoSoundBlob(s, s', repoDir, files, files[j], suffix, plan, c);
  }

  lemma IntoSoundBlob(s: State, s': State, repoDir: string, files: seq<FileManifest>, f: FileManifest, suffix: string,
      plan: Plan, c: Cid)
    requires BlobsSound(s, s', repoDir, files) && f in files && f in plan.all && suffix in plan.suffixes
    requires Guarded(s, repoDir, plan.all, suffix)
    requires c in s'.refs && s'.refs[c].path == BlobOf(repoDir, f)
    ensures Reconstruct.HasBlob(s'.disk, repoDir, f)
  {
    assert BlobSound(s, s', repoDir, f);
    assert Reconstruct.HasBlob(s.disk, repoDir, f) || FileLaws.Unreferenced(s.refs, BlobOf(repoDir, f));
  }

  /** A referenced blob of the list had its length before, and has it still. */
  lemma OldBlobKeepsSize(s: State, s': State, repoDir: string, commit: string, files: seq<FileManifest>,
      suffix: string, plan: Plan, g: FileManifest)
    requires FilesTo(s, s', repoDir, files, suffix) && BlobsSound(s, s', repoDir, files)
    requires GuardedAll(s, repoDir, commit, plan) && suffix in plan.suffixes && forall f | f in files :: f in plan.all
    requires g in plan.listed && exists c :: c in s.refs && s.refs[c].path == BlobOf(repoDir, g)
    ensures Fallback.HasSize(s'.disk, repoDir, g)
  {
    if f :| f in files && f.blobName == g.blobName {
      assert BlobSound(s, s', repoDir, f);
      assert Guarded(s, repoDir, plan.all, suffix) && f in plan.all;
    } else {
      assert Foreign(repoDir, files, suffix, BlobOf(repoDir, g));
      assert SameFile(s.disk, s'.disk, BlobOf(repoDir, g));
    }
  }

  /** References live before live still, and what was guarded and done is. */
  ghost predicate StillTended(s: State, s': State, repoDir: string, commit: string, plan: Plan) {
    && (RefsLive(s) && NoneUnder(s, repoDir, commit) ==> RefsLive(s'))
    && (GuardedAll(s, repoDir, commit, plan) ==> GuardedAll(s', repoDir, commit, plan))
    && (AllBlobsDone(s, repoDir, commit) ==> AllBlobsDone(s', repoDir, commit))
  }

  /** Only files of the snapshot were touched. */
  ghost predicate OnlyUnder(s: State, s': State, repoDir: string, commit: string) {
    && s'.refs == s.refs && s'.mapping == s.mapping
    && forall p: Path | !Under(repoDir, commit, p) :: SameFile(s.disk, s'.disk, p)
  }

  /** Linking replaces files in the snapshot directory only. */
  lemma LinkTended(s: State, s': State, repoDir: string, commit: string, files: seq<FileManifest>, placed: nat,
      plan: Plan)
    requires LinkStep(s, s', repoDir, commit, files, placed)
    ensures StillTended(s, s', repoDir, commit, plan)
  {
    LinkStepReplaces(s, s', repoDir, commit, files, placed);
    forall p: Path | !Under(repoDir, commit, p) ensures SameFile(s.disk, s'.disk, p) {
      assert p !in LinkSet(repoDir, commit, files);
    }
    UnderTended(s, s', repoDir, commit, plan);
  }

  lemma UnderTended(s: State, s': State, repoDir: string, commit: string, plan: Plan)
    requires OnlyUnder(s, s', repoDir, commit)
    ensures StillTended(s, s', repoDir, commit, plan)
  {
    forall c | RefsLive(s) && NoneUnder(s, repoDir, commit) && c in s'.refs ensures RefLive(s'.disk, c, s'.refs[c]) {
      assert RefLive(s.disk, c, s.refs[c]) && !Under(repoDir, commit, s.refs[c].path);
    }
    assert forall name :: SameFile(s.disk, s'.disk, BlobPath(repoDir, name));
    forall x | x in plan.suffixes && Guarded(s, repoDir, plan.all, x) ensures Guarded(s', repoDir, plan.all, x) {
      assert forall f | f in plan.all && Reconstruct.HasBlob(s.disk, repoDir, f) ::
        Reconstruct.HasBlob(s'.disk, repoDir, f);
    }
  }

  /** Links the files of a mapped revision. */
  method LinkMapped(n: Node, repoId: string, t: RepoType, commit: string, ref: string, ghost plan: Plan,
      ghost s: State, ghost run: Run)
    returns (ok: bool, ghost run': Run)
    requires Honest(n.View()) && commit in n.mapping && Leads(s, run, n.View())
    modifies n
    ensures Honest(n.View()) && n.mapping == old(n.mapping) && Leads(s, run', n.View())
    ensures StillTended(old(n.View()), n.View(), RepoDirName(repoId, t), commit, plan)
    ensures Placeable(old(n.View()), RepoDirName(repoId, t), commit, n.mapping[commit].files) ==> ok
    ensures Entered(n.View(), RepoDirName(repoId, t), commit) <=
      Entered(old(n.View()), RepoDirName(repoId, t), commit) +
      LinkSet(RepoDirName(repoId, t), commit, n.mapping[commit].files)
    ensures |run'.ops| == |run.ops| + 1 && OnlyPeers(run, run') && run'.ops[|run.ops|].LinkOp?
    ensures ok ==> Landed(n.View(), RepoDirName(repoId, t), ref, commit)
  {
    ghost var s0, links, placed := n.View(), n.links, 0;
    ok, placed := WriteSnapshot(n, RepoDirName(repoId, t), commit, n.mapping[commit].files, ref);
    if ok { LinkedIsAvailable(n.View(), links, repoId, t, commit); }
    LinkStepEnters(s0, n.View(), RepoDirName(repoId, t), commit, n.mapping[commit].files, placed);
    LinkTended(s0, n.View(), RepoDirName(repoId, t), commit, n.mapping[commit].files, placed, plan);
    run' := LinkAdded(s, run, s0, n.View(), LinkOp(RepoDirName(repoId, t), commit, n.mapping[commit].files, placed));
  }

  lemma LinkAdded(s: State, run: Run, s1: State, s': State, op: Op) returns (run': Run)
    requires Leads(s, run, s1) && op.LinkOp? && Runs.Step(s1, op, s')
    ensures Leads(s, run', s') && OnlyPeers(run, run')
    ensures |run'.ops| == |run.ops| + 1 && run'.ops[|run.ops|].LinkOp?
  {
    ThenLeads(s, run, s1, op, s');
    run' := Then(run, op, s');
  }

  function Dialed(peers: seq<Option<Provider>>): seq<Provider> {
    if peers == [] then []
    else
      var m := |peers| - 1;
      Dialed(peers[..m]) + if peers[m].Some? then [peers[m].value] else []
  }

  function CandidatesOf(swarm: Swarm): seq<Provider> {
    Dialed(swarm.peers) + if swarm.found.Some? then swarm.found.value else []
  }

  /** The candidate answers for the commit, serves all it announces, and the machine does not
      fail. */
  ghost predicate Helpful(p: Provider, commit: string, budget: nat) {
    p.response.Some? && Acceptable(commit, p.response.value) &&
    Favourable(p.answers, p.response.value.actual.value, p.response.value.files, budget, p.faults)
  }

  /** Collects the candidates, the dialed ones first. */
  method Candidates(conn: Conn, swarm: Swarm) returns (providers: seq<Provider>)
    modifies conn
    ensures Quiet(old(conn.sent), conn.sent)
    ensures providers == CandidatesOf(swarm)
  {
    ghost var before := conn.sent;
    providers := [];
    for i := 0 to |swarm.peers|
      invariant Quiet(before, conn.sent)
      invariant providers == Dialed(swarm.peers[..i])
    {
      assert swarm.peers[..i + 1][..i] == swarm.peers[..i];
      if swarm.peers[i].None? {
        conn.Emit(Progress);
      } else {
        providers := providers + [swarm.peers[i].value];
      }
    }
    assert swarm.peers[..|swarm.peers|] == swarm.peers;
    for i := 0 to |swarm.connects|
      invariant Quiet(before, conn.sent)
    {
      conn.Emit(Progress);
    }
    if swarm.tableEmpty {
      conn.Emit(Progress);
    }
    if swarm.found.None? {
      conn.Emit(Progress);
    } else {
      providers := providers + swarm.found.value;
    }
  }

  /** Asks one provider after the other, until one delivers. A helpful one among them is enough
      to get to the linking. */
  method PullFromPeers(n: Node, conn: Conn, repoId: string, t: RepoType, commit: string, ref: string, swarm: Swarm,
      ghost plan: Plan, ghost s: State, ghost run: Run)
    returns (r: Tried, ghost run': Run)
    requires Honest(n.View()) && Leads(s, run, n.View())
    modifies n, conn
    ensures Honest(n.View()) && Leads(s, run', n.View())
    ensures if r.Delivered? then EndsWith(old(conn.sent), conn.sent, Done) else Quiet(old(conn.sent), conn.sent)
    ensures r.Delivered? ==> Landed(n.View(), RepoDirName(repoId, t), ref, commit)
    ensures (exists p :: p in CandidatesOf(swarm) && Helpful(p, commit, swarm.budget)) ==> !r.Unusable?
    ensures AllLinkable(old(n.View()), RepoDirName(repoId, t), commit, CandidatesOf(swarm)) ==> !r.Aborted?
    ensures OnlyPeers(run, run') && (!r.Unusable? ==> HasPulled(run, run', commit))
    ensures EnteredBy(old(n.View()), n.View(), RepoDirName(repoId, t), commit, CandidatesOf(swarm))
    ensures AllTended(old(n.View()), n.View(), RepoDirName(repoId, t), commit, CandidatesOf(swarm), plan, r)
  {
    ghost var before := conn.sent;
    run' := run;
    var providers := Candidates(conn, swarm);
    if |providers| == 0 { return Unusable, run'; }
    conn.Emit(Progress);
    ghost var mid := conn.sent;
    r, run' := TryEach(n, conn, repoId, t, commit, ref, providers, swarm.budget, plan, s, run');
    QuietTwice(before, mid, conn.sent);
  }

  /** The candidates in turn. */
  method TryEach(n: Node, conn: Conn, repoId: string, t: RepoType, commit: string, ref: string,
      providers: seq<Provider>, budget: nat, ghost plan: Plan, ghost s: State, ghost run: Run)
    returns (r: Tried, ghost run': Run)
    requires Honest(n.View()) && Leads(s, run, n.View())
    modifies n, conn
    ensures Honest(n.View()) && Leads(s, run', n.View())
    ensures if r.Delivered? then EndsWith(old(conn.sent), conn.sent, Done) else Quiet(old(conn.sent), conn.sent)
    ensures r.Delivered? ==> Landed(n.View(), RepoDirName(repoId, t), ref, commit)
    ensures (exists p :: p in providers && Helpful(p, commit, budget)) ==> !r.Unusable?
    ensures AllLinkable(old(n.View()), RepoDirName(repoId, t), commit, providers) ==> !r.Aborted?
    ensures OnlyPeers(run, run') && (!r.Unusable? ==> HasPulled(run, run', commit))
    ensures EnteredBy(old(n.View()), n.View(), RepoDirName(repoId, t), commit, providers)
    ensures AllTended(old(n.View()), n.View(), RepoDirName(repoId, t), commit, providers, plan, r)
  {
    ghost var before, s0, dir := conn.sent, n.View(), RepoDirName(repoId, t);
    run' := run;
    for i := 0 to |providers|
      invariant Honest(n.View()) && Quiet(before, conn.sent) && Leads(s, run', n.View())
      invariant forall j | 0 <= j < i :: !Helpful(providers[j], commit, budget)
      invariant AllTended(s0, n.View(), dir, commit, providers, plan, Unusable)
      invariant OnlyPeers(run, run') && Entered(n.View(), dir, commit) == Entered(s0, dir, commit)
    {
      ghost var mid, s1, run1 := conn.sent, n.View(), run';
      r, run' := TryProvider(n, conn, repoId, t, commit, ref, providers[i], budget, plan, s, run');
      QuietTwice(before, mid, conn.sent);
      TendedNext(s0, s1, n.View(), dir, commit, providers, i, plan, r);
      StillPulled(run, run1, run', commit);
      assert providers[i] in providers;
      if !r.Unusable? { return; }
    }
    r := Unusable;
  }

  ghost predicate AllLinkable(s: State, repoDir: string, commit: string, ps: seq<Provider>) {
    forall p | p in ps :: Linkable(s, repoDir, commit, p)
  }

  /** What came into the snapshot are places of the providers' links. */
  ghost predicate EnteredBy(s: State, s': State, repoDir: string, commit: string, ps: seq<Provider>) {
    forall x | x in Entered(s', repoDir, commit) ::
      x in Entered(s, repoDir, commit) || exists p :: p in ps && x in Places(p, repoDir, commit)
  }

  /** The same over all attempts. */
  ghost predicate AllTended(s: State, s': State, repoDir: string, commit: string, ps: seq<Provider>, plan: Plan,
      r: Tried)
  {
    (forall p | p in ps :: Among(p, commit, plan)) && GuardedAll(s, repoDir, commit, plan) ==>
      && (RefsLive(s) ==> RefsLive(s')) && GuardedAll(s', repoDir, commit, plan)
      && (r.Delivered? ==> AllBlobsDone(s', repoDir, commit))
  }

  lemma TendedNext(s: State, s1: State, s2: State, repoDir: string, commit: string, ps: seq<Provider>, i: nat,
      plan: Plan, r: Tried)
    requires i < |ps| && AllTended(s, s1, repoDir, commit, ps, plan, Unusable)
    requires Tended(s1, s2, repoDir, commit, ps[i], plan, r)
    ensures AllTended(s, s2, repoDir, commit, ps, plan, r)
  {
    assert ps[i] in ps;
  }

  // ---- The run ----

  datatype Options = Options(repoId: string, repoType: RepoType, commit: Option<string>, ref: string, force: bool,
      p2p: bool, hf: bool)

  /** What the surroundings answer: the newest commit, the swarm, and the Hub. */
  datatype World = World(latest: Option<string>, swarm: Swarm, siblings: Option<seq<Fallback.Sibling>>,
      xet: map<string, string>, hub: Fallback.Hub, im: Importer)

  /** The commit that is pulled. */
  function Target(o: Options, w: World): Option<string> {
    if o.commit.Some? then o.commit else w.latest
  }

  predicate Blank(s: string) {
    forall c | c in s :: c in " \t\n\r"
  }

  /** There is nothing to do. */
  predicate Present(s: State, o: Options, commit: string) {
    !o.force && commit in s.mapping && SnapshotComplete(s.disk, s.links, RepoDirName(o.repoId, o.repoType), commit)
  }

  predicate PresentAlready(s: State, o: Options, target: Option<string>) {
    target.Some? && ValidCommit(target.value) && Present(s, o, target.value)
  }

  /** The plan holds all that this pull may come to write, and the state is guarded for it. */
  ghost predicate Planned(s: State, o: Options, w: World, commit: string, plan: Plan) {
    && (forall p | p in CandidatesOf(w.swarm) :: Among(p, commit, plan))
    && plan.listed == Fallback.Listed(w.siblings, w.xet) && plan.hubSuffix == w.hub.suffix
    && GuardedAll(s, RepoDirName(o.repoId, o.repoType), commit, plan)
  }

  /** The blobs are those of the manifest that was mapped, or of what the Hub lists. */
  ghost predicate Contents(s: State, o: Options, commit: string, plan: Plan) {
    || AllBlobsDone(s, RepoDirName(o.repoId, o.repoType), commit)
    || Fallback.Filled(s.disk, RepoDirName(o.repoId, o.repoType), plan.listed)
  }

  /** What is obtained as planned has its contents, and kills no reference. */
  ghost predicate AsPlanned(s: State, s': State, o: Options, w: World, commit: string, plan: Plan, ok: bool) {
    Planned(s, o, w, commit, plan) ==> (RefsLive(s) ==> RefsLive(s')) && (ok ==> Contents(s', o, commit, plan))
  }

  /** The same of the whole pull, save that a revision which is mapped already may have been
      linked as it is. */
  ghost predicate RanAsPlanned(s: State, s': State, o: Options, w: World, plan: Plan, ok: bool) {
    Target(o, w).Some? && Planned(s, o, w, Target(o, w).value, plan) ==>
      && (RefsLive(s) ==> RefsLive(s'))
      && (ok && (o.force || Target(o, w).value !in s.mapping) ==> Contents(s', o, Target(o, w).value, plan))
  }

  /** The commit is named, or else the newest one could be asked for. */
  ghost predicate IsTarget(o: Options, w: World, commit: string) {
    o.commit == Some(commit) || (o.commit == None && w.latest == Some(commit))
  }

  /** Some candidate answers for the commit and serves all it announces, and what any of them
      announces can be placed. */
  ghost predicate PeersDeliver(s: State, o: Options, w: World, commit: string) {
    && (exists p :: p in CandidatesOf(w.swarm) && Helpful(p, commit, w.swarm.budget))
    && AllLinkable(s, RepoDirName(o.repoId, o.repoType), commit, CandidatesOf(w.swarm))
  }

  /** The Hub lists good files, all of which arrive and can be placed. */
  ghost predicate FromHubObtains(s: State, o: Options, w: World, commit: string) {
    Fallback.HubObtains(s, RepoDirName(o.repoId, o.repoType), commit, w.siblings, w.xet, w.hub)
  }

  /** The Hub does; and candidates that were asked before place no other files. */
  ghost predicate HubDelivers(s: State, o: Options, w: World, commit: string) {
    && FromHubObtains(s, o, w, commit)
    && forall p | p in CandidatesOf(w.swarm) ::
      Places(p, RepoDirName(o.repoId, o.repoType), commit) <=
      LinkSet(RepoDirName(o.repoId, o.repoType), commit, Fallback.Listed(w.siblings, w.xet))
  }

  /** What peers or the Hub can deliver is delivered, by whichever may be used, peers first. */
  ghost predicate Delivers(s: State, o: Options, w: World, commit: string, ok: bool, run: Run) {
    && ((o.p2p || !o.hf) && PeersDeliver(s, o, w, commit) ==> ok && forall op | op in run.ops :: !op.DownloadOp?)
    && ((o.hf || !o.p2p) && HubDelivers(s, o, w, commit) ==> ok)
    && ((o.p2p || !o.hf) && (exists p :: p in CandidatesOf(w.swarm) && Helpful(p, commit, w.swarm.budget))
        ==> exists op :: op in run.ops && op.PullOp? && op.ok && op.commit == commit)
  }

  /** What a pull of the commit needs to succeed. */
  ghost predicate Obtainable(s: State, o: Options, w: World, commit: string) {
    if o.force || commit !in s.mapping
    then ((o.p2p || !o.hf) && PeersDeliver(s, o, w, commit)) || ((o.hf || !o.p2p) && HubDelivers(s, o, w, commit))
    else Placeable(s, RepoDirName(o.repoId, o.repoType), commit, s.mapping[commit].files)
  }

  /** A revision that is mapped already is only linked, and that succeeds where the links can be
      placed; one that is not, or is pulled all the same, is delivered. */
  ghost predicate AsOffered(s: State, o: Options, w: World, commit: string, ok: bool, run: Run) {
    ValidCommit(commit) ==>
      if o.force || commit !in s.mapping then Delivers(s, o, w, commit, ok, run)
      else Placeable(s, RepoDirName(o.repoId, o.repoType), commit, s.mapping[commit].files) ==> ok
  }

  /** There is a commit to pull, and a way to it. */
  ghost predicate Pullable(s: State, o: Options, w: World) {
    && (exists c :: c in o.repoId && c !in " \t\n\r")
    && exists k :: IsTarget(o, w, k) && ValidCommit(k) && Obtainable(s, o, w, k)
  }

  /** The revision is available; and unless it was there already, the ref is at it. */
  ghost predicate Brought(s: State, s': State, o: Options, commit: string) {
    && Available(s', RepoDirName(o.repoId, o.repoType), commit)
    && (s' == s || RefNames(s'.heads, RepoDirName(o.repoId, o.repoType), o.ref, commit))
  }

  lemma PullableIsDone(s: State, o: Options, w: World, ok: bool, run: Run)
    requires Pullable(s, o, w) && forall k | IsTarget(o, w, k) :: AsOffered(s, o, w, k, ok, run)
    ensures ok
  {
    var k :| IsTarget(o, w, k) && ValidCommit(k) && Obtainable(s, o, w, k);
    assert AsOffered(s, o, w, k, ok, run);
  }

  /** Executes the whole pull. It succeeds exactly when it reports done, as the last thing and
      once; and then the revision is available. From a state that is guarded for all it may write,
      references stay live however it ends, and what is not mapped already comes with its contents.
      What it does is a run, so the promises are kept when its steps are guarded. */
  method Run(n: Node, conn: Conn, o: Options, w: World, ghost plan: Plan) returns (ok: bool, ghost run: Run)
    requires Honest(n.View()) && Usable(w.im)
    modifies n, conn
    ensures Honest(n.View()) && Leads(old(n.View()), run, n.View())
    ensures Promises(old(n.View())) && GuardedTo(run, |run.ops|) ==> Promises(n.View())
    ensures if ok then EndsWith(old(conn.sent), conn.sent, Done) else Quiet(old(conn.sent), conn.sent)
    ensures ok ==> exists c :: c in o.repoId && c !in " \t\n\r"
    ensures ok ==>
      exists commit :: IsTarget(o, w, commit) && ValidCommit(commit) && Brought(old(n.View()), n.View(), o, commit)
    ensures RanAsPlanned(old(n.View()), n.View(), o, w, plan, ok)
    ensures o.p2p && !o.hf ==> forall op | op in run.ops :: op.PullOp? || op.LinkOp?
    ensures o.hf && !o.p2p ==> forall op | op in run.ops :: !op.PullOp?
    ensures (exists c :: c in o.repoId && c !in " \t\n\r") ==>
      forall commit | IsTarget(o, w, commit) :: AsOffered(old(n.View()), o, w, commit, ok, run)
    ensures !Blank(o.repoId) && PresentAlready(old(n.View()), o, Target(o, w)) ==> ok && n.View() == old(n.View())
  {
    ghost var s := n.View();
    run := Still(s);
    if Blank(o.repoId) { return false, run; }
    ghost var before := conn.sent;
    if o.commit.None? { conn.Emit(Progress); }
    var target := Target(o, w);
    if target.None? || !ValidCommit(target.value) { return false, run; }
    conn.Emit(Progress);
    ghost var mid := conn.sent;
    ok, run := RunFor(n, conn, o, w, target.value, plan);
    QuietTwice(before, mid, conn.sent);
    if Promises(s) && GuardedTo(run, |run.ops|) { RunsKeepPromises(s, run, n.View(), |run.ops|); }
  }

  /** The same for the commit that it is about. */
  method RunFor(n: Node, conn: Conn, o: Options, w: World, commit: string, ghost plan: Plan)
    returns (ok: bool, ghost run: Run)
    requires Honest(n.View()) && Usable(w.im) && Target(o, w) == Some(commit)
    modifies n, conn
    ensures Honest(n.View()) && Leads(old(n.View()), run, n.View())
    ensures if ok then EndsWith(old(conn.sent), conn.sent, Done) else Quiet(old(conn.sent), conn.sent)
    ensures ok ==> Brought(old(n.View()), n.View(), o, commit)
    ensures RanAsPlanned(old(n.View()), n.View(), o, w, plan, ok)
    ensures o.p2p && !o.hf ==> forall op | op in run.ops :: op.PullOp? || op.LinkOp?
    ensures o.hf && !o.p2p ==> forall op | op in run.ops :: !op.PullOp?
    ensures AsOffered(old(n.View()), o, w, commit, ok, run)
    ensures Present(old(n.View()), o, commit) ==> ok && n.View() == old(n.View())
  {
    if !o.force && commit in n.mapping {
      ok, run := Relink(n, conn, o, commit);
    } else {
      ok, run := Obtain(n, conn, o, w, commit, plan);
    }
  }

  /** The revision is mapped already: rebuild its links where they are missing. */
  method Relink(n: Node, conn: Conn, o: Options, commit: string) returns (ok: bool, ghost run: Run)
    requires Honest(n.View()) && commit in n.mapping && !o.force
    modifies n, conn
    ensures Honest(n.View()) && n.mapping == old(n.mapping) && Leads(old(n.View()), run, n.View())
    ensures if ok then EndsWith(old(conn.sent), conn.sent, Done) else Quiet(old(conn.sent), conn.sent)
    ensures ok ==> Brought(old(n.View()), n.View(), o, commit)
    ensures Present(old(n.View()), o, commit) ==> ok && n.View() == old(n.View())
    ensures RefsLive(old(n.View())) && NoneUnder(old(n.View()), RepoDirName(o.repoId, o.repoType), commit)
      ==> RefsLive(n.View())
    ensures Placeable(old(n.View()), RepoDirName(o.repoId, o.repoType), commit, n.mapping[commit].files) ==> ok
    ensures forall op | op in run.ops :: op.LinkOp?
  {
    var dir := RepoDirName(o.repoId, o.repoType);
    ghost var s := n.View();
    run := Still(s);
    ok := SnapshotComplete(n.disk, n.links, dir, commit);
    if !ok {
      ok, run := LinkMapped(n, o.repoId, o.repoType, commit, o.ref, Plan([], {}, [], ""), s, run);
      if !ok { return; }
    }
    conn.Emit(Done);
  }

  /** Peers first, then the Hub, as far as each may be used. */
  method Obtain(n: Node, conn: Conn, o: Options, w: World, commit: string, ghost plan: Plan)
    returns (ok: bool, ghost run: Run)
    requires Honest(n.View()) && Usable(w.im)
    modifies n, conn
    ensures Honest(n.View()) && Leads(old(n.View()), run, n.View())
    ensures AsPlanned(old(n.View()), n.View(), o, w, commit, plan, ok)
    ensures if ok then EndsWith(old(conn.sent), conn.sent, Done) else Quiet(old(conn.sent), conn.sent)
    ensures ok ==> Landed(n.View(), RepoDirName(o.repoId, o.repoType), o.ref, commit)
    ensures Sourced(o, run) && (ValidCommit(commit) ==> Delivers(old(n.View()), o, w, commit, ok, run))
  {
    ghost var before, s := conn.sent, n.View();
    run := Still(s);
    var p2p, hf := o.p2p || !o.hf, o.hf || !o.p2p;
    if p2p {
      var r: Tried;
      r, run := PullFromPeers(n, conn, o.repoId, o.repoType, commit, o.ref, w.swarm, plan, s, run);
      ok := r.Delivered?;
      if ok || !hf {
        PeersSettle(s, n.View(), o, w, commit, r, run);
        return;
      }
      conn.Emit(Progress);
      ghost var mid, s1, run1 := conn.sent, n.View(), run;
      ok, run := FromHub(n, conn, o, w, commit, plan, s, run);
      QuietTwice(before, mid, conn.sent);
      HubSettles(s, s1, o, w, commit, r, run1, run, ok);
    } else {
      ok, run := FromHub(n, conn, o, w, commit, plan, s, run);
      HubAlone(s, o, w, commit, run, ok);
    }
  }

  /** Only what may be used was used. */
  ghost predicate Sourced(o: Options, run: Run) {
    && (o.p2p && !o.hf ==> forall op | op in run.ops :: op.PullOp? || op.LinkOp?)
    && (o.hf && !o.p2p ==> forall op | op in run.ops :: !op.PullOp?)
  }

  /** What the attempts with peers leave. */
  ghost predicate PeersTried(s: State, s1: State, o: Options, w: World, commit: string, r: Tried, run: Run) {
    && ((exists p :: p in CandidatesOf(w.swarm) && Helpful(p, commit, w.swarm.budget)) ==> !r.Unusable?)
    && (AllLinkable(s, RepoDirName(o.repoId, o.repoType), commit, CandidatesOf(w.swarm)) ==> !r.Aborted?)
    && OnlyPeers(Still(s), run) && (!r.Unusable? ==> HasPulled(Still(s), run, commit))
    && EnteredBy(s, s1, RepoDirName(o.repoId, o.repoType), commit, CandidatesOf(w.swarm))
  }

  lemma PeersSettle(s: State, s1: State, o: Options, w: World, commit: string, r: Tried, run: Run)
    requires PeersTried(s, s1, o, w, commit, r, run) && (o.p2p || !o.hf) && (r.Delivered? || (o.p2p && !o.hf))
    ensures Sourced(o, run) && Delivers(s, o, w, commit, r.Delivered?, run)
  {
    PeersDelivered(Still(s), run, commit);
  }

  lemma HubSettles(s: State, s1: State, o: Options, w: World, commit: string, r: Tried, run1: Run, run: Run, ok: bool)
    requires PeersTried(s, s1, o, w, commit, r, run1) && !r.Delivered? && o.p2p == o.hf && OnlyHub(run1, run)
    requires ValidCommit(commit) && FromHubObtains(s1, o, w, commit) ==> ok
    ensures Sourced(o, run) && (ValidCommit(commit) ==> Delivers(s, o, w, commit, ok, run))
  {
    PeersDelivered(Still(s), run1, commit);
    if HubDelivers(s, o, w, commit) { HubStillDelivers(s, s1, o, w, commit); }
    forall op | op in run1.ops ensures op in run.ops {
      var i :| 0 <= i < |run1.ops| && run1.ops[i] == op;
      assert run.ops[i] == op;
    }
  }

  lemma HubAlone(s: State, o: Options, w: World, commit: string, run: Run, ok: bool)
    requires o.hf && !o.p2p && OnlyHub(Still(s), run)
    requires ValidCommit(commit) && FromHubObtains(s, o, w, commit) ==> ok
    ensures Sourced(o, run) && (ValidCommit(commit) ==> Delivers(s, o, w, commit, ok, run))
  {
    forall op | op in run.ops ensures !op.PullOp? {
      var i :| 0 <= i < |run.ops| && run.ops[i] == op;
    }
  }

  /** What peers did, told of the whole run. */
  lemma PeersDelivered(start: Run, run: Run, commit: string)
    requires start.ops == [] && OnlyPeers(start, run)
    ensures forall op | op in run.ops :: op.PullOp? || op.LinkOp?
    ensures HasPulled(start, run, commit) ==> exists op :: op in run.ops && op.PullOp? && op.ok && op.commit == commit
  {
    forall op | op in run.ops ensures op.PullOp? || op.LinkOp? {
      var i :| 0 <= i < |run.ops| && run.ops[i] == op;
    }
    if HasPulled(start, run, commit) {
      var i :| 0 <= i < |run.ops| && PulledAt(run, i, commit);
      assert run.ops[i] in run.ops;
    }
  }

  /** Failed attempts leave what the Hub needs as it was. */
  lemma HubStillDelivers(s: State, s': State, o: Options, w: World, commit: string)
    requires HubDelivers(s, o, w, commit)
    requires EnteredBy(s, s', RepoDirName(o.repoId, o.repoType), commit, CandidatesOf(w.swarm))
    ensures FromHubObtains(s', o, w, commit)
  {
    var dir, listed := RepoDirName(o.repoId, o.repoType), Fallback.Listed(w.siblings, w.xet);
    forall x | x in Entered(s', dir, commit) ensures x in LinkSet(dir, commit, listed) {
      assert x in Entered(s, dir, commit) || exists p :: p in CandidatesOf(w.swarm) && x in Places(p, dir, commit);
    }
  }

  /** Only steps of the fallback were added to the run. */
  ghost predicate OnlyHub(run: Run, run': Run) {
    && run.ops <= run'.ops
    && forall i | |run.ops| <= i < |run'.ops| ::
      run'.ops[i].DownloadOp? || run'.ops[i].LinkOp? || run'.ops[i].IngestOp?
  }

  method FromHub(n: Node, conn: Conn, o: Options, w: World, commit: string, ghost plan: Plan, ghost s: State,
      ghost run: Run)
    returns (ok: bool, ghost run': Run)
    requires Honest(n.View()) && Usable(w.im) && Leads(s, run, n.View())
    modifies n, conn
    ensures Honest(n.View()) && Leads(s, run', n.View())
    ensures AsPlanned(old(n.View()), n.View(), o, w, commit, plan, ok)
    ensures if ok then EndsWith(old(conn.sent), conn.sent, Done) else Quiet(old(conn.sent), conn.sent)
    ensures ok ==> Landed(n.View(), RepoDirName(o.repoId, o.repoType), o.ref, commit)
    ensures OnlyHub(run, run')
    ensures ValidCommit(commit) && FromHubObtains(old(n.View()), o, w, commit) ==> ok
  {
    conn.Emit(Progress);
    ok, run' := HubSteps(n, o, w, commit, plan, s, run);
    if ok {
      SharedIsAvailable(n.View(), o.repoId, o.repoType, commit);
      conn.Emit(Done);
    }
  }

  method HubSteps(n: Node, o: Options, w: World, commit: string, ghost plan: Plan, ghost s: State, ghost run: Run)
    returns (ok: bool, ghost run': Run)
    requires Honest(n.View()) && Usable(w.im) && Leads(s, run, n.View())
    modifies n
    ensures Honest(n.View()) && Leads(s, run', n.View())
    ensures AsPlanned(old(n.View()), n.View(), o, w, commit, plan, ok)
    ensures ok ==> IsShared(n.View(), o.repoId, o.repoType, commit)
    ensures ok ==> RefNames(n.heads, RepoDirName(o.repoId, o.repoType), o.ref, commit)
    ensures OnlyHub(run, run')
    ensures ValidCommit(commit) && FromHubObtains(old(n.View()), o, w, commit) ==> ok
  {
    ghost var s0 := n.View();
    ghost var mid1, mid2, linked, done;
    ok, mid1, mid2, linked, done :=
      Fallback.PullFromHub(n, o.repoId, o.repoType, commit, o.ref, w.siblings, w.xet, w.hub, w.im);
    run' := HubRun(s, run, s0, mid1, mid2, n.View(), RepoDirName(o.repoId, o.repoType), commit,
      Fallback.Listed(w.siblings, w.xet), linked, w.hub, done, ok);
    HubAsPlanned(s0, n.View(), o, w, commit, plan, ok);
  }

  lemma HubAsPlanned(s: State, s': State, o: Options, w: World, commit: string, plan: Plan, ok: bool)
    requires var dir, files := RepoDirName(o.repoId, o.repoType), Fallback.Listed(w.siblings, w.xet);
      && (RefsLive(s) && Fallback.Unclaimed(s, dir, commit, files, w.hub.suffix) ==> RefsLive(s'))
      && (ok && Fallback.NamesAgree(dir, files, w.hub.suffix) ==> Fallback.Filled(s'.disk, dir, files))
    ensures AsPlanned(s, s', o, w, commit, plan, ok)
  {
    if Planned(s, o, w, commit, plan) { PlannedIsUnclaimed(s, RepoDirName(o.repoId, o.repoType), commit, plan); }
  }

  lemma PlannedIsUnclaimed(s: State, repoDir: string, commit: string, plan: Plan)
    requires GuardedAll(s, repoDir, commit, plan)
    ensures Fallback.Unclaimed(s, repoDir, commit, plan.listed, plan.hubSuffix)
  {
    forall c | c in s.refs ensures s.refs[c].path !in LinkSet(repoDir, commit, plan.listed) {
      assert !Under(repoDir, commit, s.refs[c].path);
    }
  }
}
