/** Runs: sequences of whole operations, each doing what its method promises. When exactly one
    step breaks a promise, and what holds along every run whose steps do not. */
module Runs {
  import opened Content
  import opened Dummy
  import opened Names
  import opened Store
  import opened Remote
  import opened Snapshot
  import Evict
  import EvictLaws
  import Fallback
  import FileLaws
  import Ingest
  import Pull
  import PullOne
  import Reconstruct
  import Share

  /** One whole operation, with its outcome: whether it succeeded, and else how far it got. */
  datatype Op =
    | IngestOp(commit: string, ok: bool)
    | PullOp(repoId: string, repoType: RepoType, commit: string, resp: Pull.MapResponse, suffix: string,
        unstored: set<Cid>, ok: bool, halt: Pull.Halt)
    | DownloadOp(repoDir: string, files: seq<FileManifest>, hub: Fallback.Hub, fetched: nat)
    | LinkOp(repoDir: string, commit: string, files: seq<FileManifest>, placed: nat)
    | EvictOp(entry: Entry, ok: bool, swept: set<Cid>)

  /** Exactly what the methods promise. */
  ghost predicate Step(s: State, op: Op, s': State) {
    match op
    case IngestOp(commit, ok) => Ingest.IngestStep(s, s', commit, ok)
    case PullOp(id, t, commit, resp, suffix, unstored, ok, halt) =>
      Pull.PullStep(s, s', id, t, commit, resp, suffix, unstored, ok, halt) && (Honest(s) ==> Honest(s'))
    case DownloadOp(dir, files, hub, fetched) => Fallback.DownloadStep(s, s', dir, files, hub, fetched)
    case LinkOp(dir, commit, files, placed) => LinkStep(s, s', dir, commit, files, placed)
    case EvictOp(e, ok, swept) => if ok then s' == Evict.Evicted(s, e) else Evict.Stopped(s, e, swept, s')
  }

  // ---- When a step keeps the promises. Only the state before and how far it gets is looked at ----

  /** What is taken for granted of names: temporary names are no blob names and not referenced,
      and within a manifest a blob name stands for one content. */
  ghost predicate NamesGuard(s: State, op: Op) {
    match op
    case PullOp(id, t, commit, resp, suffix, _, _, _) =>
      Pull.Acceptable(commit, resp) ==>
        && Pull.TempNamesFree(RepoDirName(id, t), resp.files, suffix) && Pull.NamesOk(resp.files)
        && Pull.TempsFree(s, RepoDirName(id, t), resp.files, suffix)
    case DownloadOp(dir, files, hub, _) =>
      && Fallback.NamesAgree(dir, files, hub.suffix)
      && forall c, f | c in s.refs && f in files :: s.refs[c].path != Fallback.TempPath(dir, f, hub.suffix)
    case _ => true
  }

  /** A reference into a blob that is written reads its own bytes in the new content, no link is
      placed over a referenced file, and a completed eviction sweeps the references into the
      snapshot it removes. */
  ghost predicate RefsGuard(s: State, op: Op) {
    match op
    case IngestOp(_, _) => true
    case PullOp(id, t, commit, resp, _, _, ok, halt) =>
      Pull.Acceptable(commit, resp) ==>
        Pull.OldRefsFit(s, RepoDirName(id, t), resp.actual.value, resp.files, ok, halt)
    case DownloadOp(dir, files, hub, fetched) => fetched <= |files| && DownloadsFit(s, dir, files, hub, fetched)
    case LinkOp(dir, commit, files, placed) =>
      placed <= |files| && forall c | c in s.refs :: s.refs[c].path !in LinkSet(dir, commit, files[..placed])
    case EvictOp(e, ok, _) =>
      ok ==> forall c | c in s.refs && Evict.InSnapshot(e, s.refs[c].path) :: Evict.Doomed(s, e, c)
  }

  /** Every reference into a blob of the manifest reads its own bytes in what the blob holds once
      the first i files are downloaded. */
  ghost predicate DownloadsFit(s: State, dir: string, files: seq<FileManifest>, hub: Fallback.Hub, i: nat)
    requires i <= |files|
  {
    forall c, f | c in s.refs && f in files && s.refs[c].path == BlobPath(dir, f.blobName) ::
      var data := Fallback.Downloaded(s.disk, dir, files, hub, i, f.blobName);
      data.Some? && FileLaws.ReadsAs(data.value, s.refs[c], c)
  }

  /** A successful pull covers the DAG it maps, a failed one takes back no chunk of a mapped
      revision, and an eviction that stops has swept nothing its revision reaches, unless both
      stores held it. */
  ghost predicate WholeGuard(s: State, op: Op) {
    match op
    case PullOp(id, t, commit, resp, _, unstored, ok, halt) =>
      Pull.LeavesWhole(s, id, t, commit, resp, unstored, ok, halt)
    case EvictOp(e, ok, swept) =>
      ok || forall c | c in swept && Evict.ReachedBy(s, e.commit, c) :: c in s.refs && c in s.blocks
    case _ => true
  }

  lemma StepKeepsCoherent(s: State, op: Op, s': State)
    requires Coherent(s) && Step(s, op, s')
    ensures Coherent(s')
  {
    match op
    case IngestOp(commit, ok) =>
      Ingest.EnlargedKeeps(s, s'.(mapping := s.mapping));
      forall c | c in s'.refs && c !in s.refs ensures IsRaw(c) { assert RefLive(s'.disk, c, s'.refs[c]); }
    case PullOp(_, _, _, _, _, _, _, _) =>
    case DownloadOp(_, _, _, _) =>
    case LinkOp(_, _, _, _) =>
    case EvictOp(e, ok, swept) => EvictionIsPartly(s, op, s');
  }

  lemma EvictionIsPartly(s: State, op: Op, s': State)
    requires op.EvictOp? && Step(s, op, s')
    ensures Evict.PartlyEvicted(s, op.entry, s')
  {
    EvictLaws.EvictionIsPartly(s, op.entry);
    if !op.ok { EvictLaws.StoppedIsPartly(s, op.entry, op.swept, s'); }
  }

  /** A step keeps references live exactly when the guard says so. */
  lemma StepDecidesRefsLive(s: State, op: Op, s': State)
    requires RefsLive(s) && Step(s, op, s') && NamesGuard(s, op)
    ensures RefsLive(s') <==> RefsGuard(s, op)
  {
    match op
    case IngestOp(commit, ok) => Ingest.EnlargedKeeps(s, s'.(mapping := s.mapping));
    case PullOp(id, t, commit, resp, suffix, unstored, ok, halt) =>
      Pull.PullDecidesRefsLive(s, s', id, t, commit, resp, suffix, unstored, ok, halt);
    case DownloadOp(_, _, _, _) => DownloadDecidesRefs(s, op, s');
    case LinkOp(_, _, _, _) => LinkDecidesRefs(s, op, s');
    case EvictOp(e, ok, swept) =>
      if ok { EvictLaws.EvictKeepsRefsLiveIff(s, e); } else { StoppedKeepsRefs(s, e, swept, s'); }
  }

  lemma DownloadDecidesRefs(s: State, op: Op, s': State)
    requires op.DownloadOp? && RefsLive(s) && Step(s, op, s') && NamesGuard(s, op)
    ensures RefsLive(s') <==> RefsGuard(s, op)
  {
    forall c | c in s.refs
      ensures RefLive(s'.disk, c, s.refs[c]) || IntoBlobOf(op, s.refs[c].path)
    {
      assert RefLive(s.disk, c, s.refs[c]);
      if !IntoBlobOf(op, s.refs[c].path) {
        assert SameFile(s.disk, s'.disk, s.refs[c].path);
      }
    }
    forall c, f | c in s.refs && f in op.files && s.refs[c].path == BlobPath(op.repoDir, f.blobName)
      ensures var data := Fallback.Downloaded(s.disk, op.repoDir, op.files, op.hub, op.fetched, f.blobName);
        RefLive(s'.disk, c, s.refs[c]) <==> data.Some? && FileLaws.ReadsAs(data.value, s.refs[c], c)
    {
      assert Fallback.BlobAt(s'.disk, op.repoDir, f.blobName) ==
        Fallback.Downloaded(s.disk, op.repoDir, op.files, op.hub, op.fetched, f.blobName);
    }
  }

  ghost predicate IntoBlobOf(op: Op, p: Path)
    requires op.DownloadOp?
  {
    exists f :: f in op.files && p == BlobPath(op.repoDir, f.blobName)
  }

  lemma LinkDecidesRefs(s: State, op: Op, s': State)
    requires op.LinkOp? && RefsLive(s) && Step(s, op, s')
    ensures RefsLive(s') <==> RefsGuard(s, op)
  {
    forall c | c in s.refs
      ensures RefLive(s'.disk, c, s.refs[c]) <==>
        s.refs[c].path !in LinkSet(op.repoDir, op.commit, op.files[..op.placed])
    {
      assert RefLive(s.disk, c, s.refs[c]);
    }
  }

  lemma StoppedKeepsRefs(s: State, e: Entry, swept: set<Cid>, s': State)
    requires RefsLive(s) && Evict.Stopped(s, e, swept, s')
    ensures RefsLive(s')
  {
    forall c | c in s'.refs ensures RefLive(s'.disk, c, s'.refs[c]) { assert RefLive(s.disk, c, s.refs[c]); }
  }

  /** A step keeps mapped revisions whole exactly when the guard says so. */
  lemma StepDecidesClosed(s: State, op: Op, s': State)
    requires Coherent(s) && Closed(s) && Step(s, op, s') && NamesGuard(s, op)
    ensures Closed(s') <==> WholeGuard(s, op)
  {
    match op
    case IngestOp(commit, ok) => Ingest.IngestKeepsPromises(s, s', commit, ok);
    case PullOp(id, t, commit, resp, suffix, unstored, ok, halt) =>
      Pull.PullDecidesClosed(s, s', id, t, commit, resp, suffix, unstored, ok, halt);
    case DownloadOp(_, _, _, _) => Fallback.FilesOnlyKeepClosed(s, s');
    case LinkOp(_, _, _, _) => Fallback.FilesOnlyKeepClosed(s, s');
    case EvictOp(e, ok, swept) =>
      if ok { EvictLaws.EvictKeepsClosed(s, e); } else { EvictLaws.StoppedKeepsClosedIff(s, e, swept, s'); }
  }

  // ---- Runs ----

  /** The states of a run and the operations between them. */
  datatype Run = Run(states: seq<State>, ops: seq<Op>)

  /** The run leads from s to s'. */
  ghost predicate Leads(s: State, run: Run, s': State) {
    && |run.states| == |run.ops| + 1 && run.states[0] == s && run.states[|run.ops|] == s'
    && forall i | 0 <= i < |run.ops| :: Step(run.states[i], run.ops[i], run.states[i + 1])
  }

  ghost predicate GuardedAt(run: Run, i: nat)
    requires i < |run.ops| && |run.states| == |run.ops| + 1
  {
    && NamesGuard(run.states[i], run.ops[i]) && RefsGuard(run.states[i], run.ops[i])
    && WholeGuard(run.states[i], run.ops[i])
  }

  ghost predicate GuardedTo(run: Run, i: nat)
    requires i <= |run.ops| && |run.states| == |run.ops| + 1
  {
    forall j | 0 <= j < i :: GuardedAt(run, j)
  }

  ghost predicate Promises(s: State) {
    Honest(s) && RefsLive(s) && Closed(s)
  }

  /** Along every guarded run the three promises hold at every point. */
  lemma {:induction false} RunsKeepPromises(s: State, run: Run, s': State, i: nat)
    requires Leads(s, run, s') && Promises(s) && i <= |run.ops| && GuardedTo(run, i)
    ensures Promises(run.states[i])
    decreases i
  {
    if i > 0 {
      RunsKeepPromises(s, run, s', i - 1);
      assert GuardedAt(run, i - 1);
      StepKeepsPromisesIff(run.states[i - 1], run.ops[i - 1], run.states[i]);
    }
  }

  lemma StepKeepsPromisesIff(s: State, op: Op, s': State)
    requires Promises(s) && Step(s, op, s') && NamesGuard(s, op)
    ensures Promises(s') <==> RefsGuard(s, op) && WholeGuard(s, op)
  {
    LiveIsCoherent(s);
    StepKeepsCoherent(s, op, s');
    StepDecidesRefsLive(s, op, s');
    StepDecidesClosed(s, op, s');
  }

  // ---- What makes a step safe however far it gets ----

  /** No blob of a manifest is referenced for other content, nothing mapped is among what the step
      may take away, and a pull that succeeds covers what it maps. */
  ghost predicate SafeBefore(s: State, op: Op) {
    match op
    case IngestOp(_, _) => true
    case PullOp(id, t, commit, resp, _, unstored, ok, _) =>
      Pull.Acceptable(commit, resp) ==>
        Pull.BlobsFree(s, RepoDirName(id, t), resp.files) &&
        if ok then Pull.Covered(s, RepoDirName(id, t), resp.actual.value, resp.files, unstored)
        else forall x | Pull.LostLeaf(s.disk, RepoDirName(id, t), resp.actual.value, resp.files, x) ::
          !BelowMapped(s, x)
    case DownloadOp(dir, files, hub, _) => Fallback.NoneOverwritten(s, dir, files, hub.suffix)
    case LinkOp(dir, commit, files, _) => forall c | c in s.refs :: s.refs[c].path !in LinkSet(dir, commit, files)
    case EvictOp(e, ok, _) =>
      if ok then forall c | c in s.refs && Evict.InSnapshot(e, s.refs[c].path) :: Evict.Doomed(s, e, c)
      else forall c :: !Evict.Doomed(s, e, c)
  }

  lemma SafeIsGuarded(s: State, op: Op, s': State)
    requires Promises(s) && Step(s, op, s') && NamesGuard(s, op) && SafeBefore(s, op)
    ensures RefsGuard(s, op) && WholeGuard(s, op)
  {
    match op
    case IngestOp(_, _) =>
    case PullOp(_, _, _, _, _, _, _, _) => SafePullIsGuarded(s, op, s');
    case DownloadOp(dir, files, hub, _) =>
      Fallback.DownloadsKeepRefsLive(s, s', dir, files, hub.suffix);
      DownloadDecidesRefs(s, op, s');
    case LinkOp(dir, commit, files, placed) => LinkSetGrows(dir, commit, files, placed);
    case EvictOp(_, _, _) =>
  }

  lemma SafePullIsGuarded(s: State, op: Op, s': State)
    requires op.PullOp? && Promises(s) && Step(s, op, s') && NamesGuard(s, op) && SafeBefore(s, op)
    ensures RefsGuard(s, op) && WholeGuard(s, op)
  {
    if Pull.Acceptable(op.commit, op.resp) {
      LiveIsCoherent(s);
      Pull.PullKeepsGuard(s, s', op.repoId, op.repoType, op.commit, op.resp, op.suffix, op.unstored, op.ok, op.halt,
        op.resp.files, op.suffix);
      StepDecidesRefsLive(s, op, s');
      if !op.ok {
        Pull.FailedPullKeepsClosed(s, s', op.repoId, op.repoType, op.commit, op.resp, op.suffix, op.unstored, op.halt);
        StepDecidesClosed(s, op, s');
      }
    }
  }

  ghost predicate SafeTo(run: Run, i: nat)
    requires i <= |run.ops| && |run.states| == |run.ops| + 1
  {
    forall j | 0 <= j < i :: SafeAt(run, j)
  }

  ghost predicate SafeAt(run: Run, i: nat)
    requires i < |run.ops| && |run.states| == |run.ops| + 1
  {
    NamesGuard(run.states[i], run.ops[i]) && SafeBefore(run.states[i], run.ops[i])
  }

  /** Along every run each of whose steps is safe in the state it starts from, the promises hold at
      every point. */
  lemma {:induction false} SafeRunsKeepPromises(s: State, run: Run, s': State, i: nat)
    requires Leads(s, run, s') && Promises(s) && i <= |run.ops| && SafeTo(run, i)
    ensures GuardedTo(run, i) && Promises(run.states[i])
    decreases i
  {
    if i > 0 {
      SafeRunsKeepPromises(s, run, s', i - 1);
      assert SafeAt(run, i - 1);
      SafeIsGuarded(run.states[i - 1], run.ops[i - 1], run.states[i]);
      assert GuardedAt(run, i - 1);
    }
    RunsKeepPromises(s, run, s', i);
  }

  /** And no further: the first step whose guard fails breaks a promise. */
  lemma UnguardedStepBreaks(s: State, run: Run, s': State, i: nat)
    requires Leads(s, run, s') && Promises(s) && i < |run.ops| && GuardedTo(run, i)
    requires NamesGuard(run.states[i], run.ops[i]) && !GuardedAt(run, i)
    ensures !Promises(run.states[i + 1])
  {
    RunsKeepPromises(s, run, s', i);
    StepKeepsPromisesIff(run.states[i], run.ops[i], run.states[i + 1]);
  }

  /** So at every point of a guarded run, every block of every mapped revision is served, byte
      for byte. */
  lemma RunsServeMapped(s: State, run: Run, s': State, i: nat, commit: string, x: Cid)
    requires Leads(s, run, s') && Promises(s) && i <= |run.ops| && GuardedTo(run, i)
    requires commit in run.states[i].mapping && run.states[i].mapping[commit].actual.Some?
    requires InDag(x, run.states[i].mapping[commit].actual.value)
    ensures Serve(run.states[i], x) == Found(x.content)
  {
    RunsKeepPromises(s, run, s', i);
    MappedRevisionsServed(run.states[i], commit, x);
  }

  // ---- Putting runs together ----

  function Still(s: State): Run {
    Run([s], [])
  }

  function Then(run: Run, op: Op, s': State): Run {
    Run(run.states + [s'], run.ops + [op])
  }

  lemma ThenLeads(s: State, run: Run, s1: State, op: Op, s': State)
    requires Leads(s, run, s1) && Step(s1, op, s')
    ensures Leads(s, Then(run, op, s'), s')
  {
  }

  /** The Hub fallback is three steps: download, link, ingest. */
  lemma HubRun(s: State, run: Run, s0: State, mid1: State, mid2: State, s': State, dir: string, commit: string,
      fs: seq<FileManifest>, linked: seq<FileManifest>, hub: Fallback.Hub, done: Fallback.Done, ok: bool)
    returns (run': Run)
    requires Leads(s, run, s0) && Fallback.DownloadStep(s0, mid1, dir, fs, hub, done.fetched)
    requires LinkStep(mid1, mid2, dir, commit, linked, done.placed)
    requires Ingest.IngestStep(mid2, s', commit, ok)
    ensures Leads(s, run', s') && run.states <= run'.states
    ensures run'.ops == run.ops + [DownloadOp(dir, fs, hub, done.fetched), LinkOp(dir, commit, linked, done.placed),
      IngestOp(commit, ok)]
  {
    ThenLeads(s, run, s0, DownloadOp(dir, fs, hub, done.fetched), mid1);
    var run1 := Then(run, DownloadOp(dir, fs, hub, done.fetched), mid1);
    ThenLeads(s, run1, mid1, LinkOp(dir, commit, linked, done.placed), mid2);
    var run2 := Then(run1, LinkOp(dir, commit, linked, done.placed), mid2);
    ThenLeads(s, run2, mid2, IngestOp(commit, ok), s');
    run' := Then(run2, IngestOp(commit, ok), s');
  }

  // ---- Methods run ----

  /** A command, with what its surroundings do. */
  datatype Command =
    | IngestCmd(repoId: string, repoType: RepoType, commit: string, im: Share.Importer)
    | PullCmd(repoId: string, repoType: RepoType, commit: string, resp: Pull.MapResponse, answers: (nat, Cid) -> Answer,
        budget: nat, suffix: string, faults: Reconstruct.Faults)
    | HubCmd(repoId: string, repoType: RepoType, commit: string, ref: string, siblings: Option<seq<Fallback.Sibling>>,
        xet: map<string, string>, hub: Fallback.Hub, im: Share.Importer)
    | RelinkCmd(repoDir: string, commit: string, files: seq<FileManifest>, ref: string)
    | EvictCmd(entry: Entry, evictFaults: Evict.Faults)

  ghost predicate Executable(cmd: Command) {
    (cmd.IngestCmd? || cmd.HubCmd?) ==> Share.Usable(cmd.im)
  }

  lemma StepKeepsFiled(s: State, op: Op, s': State)
    requires Filed(s) && Step(s, op, s')
    ensures Filed(s')
  {
    if op.EvictOp? { EvictionIsPartly(s, op, s'); }
  }

  /** The steps are those of the command, and it succeeds when it should. */
  ghost predicate Did(s: State, cmd: Command, ops: seq<Op>) {
    match cmd
    case IngestCmd(id, t, commit, _) =>
      var dir := RepoDirName(id, t);
      ops == [IngestOp(commit, Share.Readable(s, dir, commit) && Visible(s.disk, s.links, dir, commit) != {} &&
        ValidCommit(commit))]
    case PullCmd(id, t, commit, resp, answers, budget, suffix, faults) =>
      && |ops| == 1 && ops[0].PullOp?
      && ops[0] == PullOp(id, t, commit, resp, suffix, faults.unstored, ops[0].ok, ops[0].halt)
      && (Pull.Acceptable(commit, resp)
          && PullOne.Favourable(answers, resp.actual.value, resp.files, budget, faults)
          ==> ops[0].ok)
    case HubCmd(id, t, commit, ref, siblings, xet, hub, _) =>
      && |ops| == 3 && ops[0].DownloadOp? && ops[1].LinkOp? && ops[2].IngestOp?
      && ops[0].repoDir == ops[1].repoDir == RepoDirName(id, t) && ops[1].commit == ops[2].commit == commit
      && ops[0].files == Fallback.Listed(siblings, xet) && ops[0].hub == hub
      && (Fallback.HubObtains(s, RepoDirName(id, t), commit, siblings, xet, hub) && ValidCommit(commit) ==> ops[2].ok)
    case RelinkCmd(dir, commit, files, ref) =>
      && |ops| == 1 && ops[0].LinkOp? && ops[0] == LinkOp(dir, commit, files, ops[0].placed)
      && (Placeable(s, dir, commit, files) ==> ops[0].placed == |files|)
    case EvictCmd(e, faults) =>
      && |ops| == 1 && ops[0].EvictOp? && ops[0].entry == e
      && (e.actual.Some? && faults.cids == {} && faults.files == {} && !faults.mapping ==> ops[0].ok)
  }

  /** The commands were carried out one after the other. */
  ghost predicate CarriedOut(cmds: seq<Command>, run: Run)
    decreases |cmds|, 1
  {
    if cmds == [] then run.ops == []
    else exists k: nat :: k <= |run.ops| && k < |run.states| && CarriedTo(cmds, run, k)
  }

  /** All but the last were by the k-th step, and the last from there. */
  ghost predicate CarriedTo(cmds: seq<Command>, run: Run, k: nat)
    requires cmds != [] && k <= |run.ops| && k < |run.states|
    decreases |cmds|, 0
  {
    && CarriedOut(cmds[..|cmds| - 1], Run(run.states[..k + 1], run.ops[..k]))
    && Did(run.states[k], cmds[|cmds| - 1], run.ops[k..])
  }

  lemma CarriedOneMore(cmds: seq<Command>, i: nat, s: State, run: Run, s1: State, run': Run)
    requires i < |cmds| && CarriedOut(cmds[..i], run) && Leads(s, run, s1)
    requires run.states <= run'.states && run.ops <= run'.ops && Did(s1, cmds[i], run'.ops[|run.ops|..])
    ensures CarriedOut(cmds[..i + 1], run')
  {
    var k := |run.ops|;
    assert cmds[..i + 1][..i] == cmds[..i] && run'.states[..k + 1] == run.states && run'.ops[..k] == run.ops;
    assert run == Run(run'.states[..k + 1], run'.ops[..k]);
    assert CarriedTo(cmds[..i + 1], run', k);
  }

  /** Carries out one command, and extends a run by what it did. */
  method Perform(n: Node, cmd: Command, ghost s: State, ghost run: Run) returns (ghost run': Run)
    requires Honest(n.View()) && Filed(n.View()) && Executable(cmd) && Leads(s, run, n.View())
    modifies n
    ensures Honest(n.View()) && Filed(n.View()) && Leads(s, run', n.View()) && run.states <= run'.states
    ensures run.ops <= run'.ops && Did(old(n.View()), cmd, run'.ops[|run.ops|..])
  {
    ghost var s0, op := n.View(), IngestOp("", false);
    match cmd {
      case IngestCmd(id, t, commit, im) =>
        var ok := Share.IngestRevision(n, id, t, commit, im);
        op := IngestOp(commit, ok);
      case PullCmd(id, t, commit, resp, answers, budget, suffix, faults) =>
        var peer := new Peer(answers);
        var state := new Reconstruct.Transfer();
        ghost var halt;
        var ok;
        ok, halt := Pull.PullFrom(n, id, t, commit, resp, peer, state, budget, suffix, faults);
        op := PullOp(id, t, commit, resp, suffix, faults.unstored, ok, halt);
      case HubCmd(_, _, _, _, _, _, _, _) =>
        run' := PerformHub(n, cmd, s, run);
        return;
      case RelinkCmd(dir, commit, files, ref) =>
        ghost var placed;
        var ok;
        ok, placed := WriteSnapshot(n, dir, commit, files, ref);
        op := LinkOp(dir, commit, files, placed);
      case EvictCmd(e, faults) =>
        ghost var swept;
        var ok;
        ok, swept := Evict.Commit(n, e, faults);
        op := EvictOp(e, ok, swept);
        EvictionIsPartly(s0, op, n.View());
    }
    ThenLeads(s, run, s0, op, n.View());
    StepKeepsFiled(s0, op, n.View());
    run' := Then(run, op, n.View());
    assert run'.ops[|run.ops|..] == [op];
  }

  method PerformHub(n: Node, cmd: Command, ghost s: State, ghost run: Run) returns (ghost run': Run)
    requires cmd.HubCmd? && Honest(n.View()) && Filed(n.View()) && Executable(cmd) && Leads(s, run, n.View())
    modifies n
    ensures Honest(n.View()) && Filed(n.View()) && Leads(s, run', n.View()) && run.states <= run'.states
    ensures run.ops <= run'.ops && Did(old(n.View()), cmd, run'.ops[|run.ops|..])
  {
    ghost var s0, dir, fs := n.View(), RepoDirName(cmd.repoId, cmd.repoType), Fallback.Listed(cmd.siblings, cmd.xet);
    var ok;
    ghost var mid1, mid2, linked, done;
    ok, mid1, mid2, linked, done :=
      Fallback.PullFromHub(n, cmd.repoId, cmd.repoType, cmd.commit, cmd.ref, cmd.siblings, cmd.xet, cmd.hub, cmd.im);
    run' := HubRun(s, run, s0, mid1, mid2, n.View(), dir, cmd.commit, fs, linked, cmd.hub, done, ok);
    StepKeepsFiled(mid2, IngestOp(cmd.commit, ok), n.View());
  }

  /** Carries out any list of commands: what happens is a run, so a node that keeps the promises
      at the start keeps them at the end when every step was guarded. */
  method Execute(n: Node, cmds: seq<Command>) returns (ghost run: Run)
    requires Honest(n.View()) && Filed(n.View()) && forall cmd | cmd in cmds :: Executable(cmd)
    modifies n
    ensures Leads(old(n.View()), run, n.View()) && CarriedOut(cmds, run)
    ensures Promises(old(n.View())) && GuardedTo(run, |run.ops|) ==> Promises(n.View())
  {
    ghost var s := n.View();
    run := Still(s);
    for i := 0 to |cmds|
      invariant Honest(n.View()) && Filed(n.View()) && Leads(s, run, n.View()) && CarriedOut(cmds[..i], run)
    {
      assert cmds[i] in cmds;
      ghost var s1, run1 := n.View(), run;
      run := Perform(n, cmds[i], s, run);
      CarriedOneMore(cmds, i, s, run1, s1, run);
    }
    assert cmds[..|cmds|] == cmds;
    if Promises(s) && GuardedTo(run, |run.ops|) { RunsKeepPromises(s, run, n.View(), |run.ops|); }
  }
}
