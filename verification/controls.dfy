/** The control connection: every command ends with one terminal event, and the caller trusts
    nothing less. */
module Controls {
  import opened Content
  import opened Dummy
  import opened Names
  import opened Store
  import opened Share
  import opened Snapshot
  import opened PullRun
  import Evict

  /** A request that was read. The repository type and the sources are None where their text
      does not parse; an empty commit is None. */
  datatype Request =
    | Unreadable
    | Pull(repoType: Option<RepoType>, sources: Option<(bool, bool)>, options: Options)
    | Ingest(repoId: string, repoType: Option<RepoType>, commit: Option<string>, ref: string)
    | Status
    | List
    | EvictCommit(target: string)
    | EvictRepo(repoId: string)
    | Shutdown
    | Unknown(cmd: string)

  class Server {
    var stopping: bool

    constructor ()
      ensures !stopping
    {
      stopping := false;
    }
  }

  /** Exactly one terminal event was sent, as the last. */
  predicate Answered(before: seq<Event>, after: seq<Event>) {
    EndsWith(before, after, Done) || EndsWith(before, after, Error)
  }

  /** The commit is named, or else the ref names it, which is main when none is given. */
  ghost predicate Named(s: State, dir: string, commit: Option<string>, name: string, k: string) {
    var ref := if name == "" then "main" else name;
    commit == Some(k) || (commit == None && (dir, ref) in s.heads && s.heads[(dir, ref)] == k && ValidCommit(k))
  }

  /** The commit an ingest is for: the one named, else what the ref names. */
  function CommitToIngest(s: State, dir: string, commit: Option<string>, name: string): Option<string> {
    var ref := RefName(name);
    if commit.Some? then commit
    else if (dir, ref) in s.heads && ValidCommit(s.heads[(dir, ref)]) then Some(s.heads[(dir, ref)])
    else None
  }

  lemma CommitIsNamed(s: State, dir: string, commit: Option<string>, name: string)
    ensures forall k :: Named(s, dir, commit, name, k) <==> CommitToIngest(s, dir, commit, name) == Some(k)
  {
  }

  /** The snapshot of the named commit shows files, and all of them are there. */
  ghost predicate Ingestible(s: State, dir: string, commit: Option<string>, name: string) {
    exists k :: Named(s, dir, commit, name, k) && ValidCommit(k) && Readable(s, dir, k) &&
      Visible(s.disk, s.links, dir, k) != {}
  }

  /** When a command is certain to be done. */
  ghost predicate Certain(req: Request, s: State, w: World, faults: Evict.Faults) {
    match req
    case Unreadable => false
    case Unknown(_) => false
    case Pull(t, src, o) =>
      t.Some? && src.Some? && Pullable(s, o.(repoType := t.value, p2p := src.value.0, hf := src.value.1), w)
    case Ingest(id, t, c, ref) => t.Some? && Ingestible(s, RepoDirName(id, t.value), c, ref)
    case Status => true
    case List => true
    case EvictCommit(c) => c in s.mapping && s.mapping[c].actual.Some? && Healthy(faults)
    case EvictRepo(id) => Evict.Evictable(s.mapping, id) && Healthy(faults)
    case Shutdown => true
  }

  ghost predicate Healthy(faults: Evict.Faults) {
    faults.cids == {} && faults.files == {} && !faults.mapping
  }

  /** What done says about the command. */
  ghost predicate Meant(req: Request, s: State, s': State, w: World, stopping: bool) {
    match req
    case Unreadable => false
    case Unknown(_) => false
    case Pull(t, src, o) =>
      t.Some? && src.Some? && exists k :: IsTarget(o, w, k) && Available(s', RepoDirName(o.repoId, t.value), k)
    case Ingest(id, t, c, ref) =>
      t.Some? && exists k :: Named(s, RepoDirName(id, t.value), c, ref, k) && IsShared(s', id, t.value, k)
    case Status => s' == s
    case List => s' == s
    case EvictCommit(c) => c in s.mapping && s' == Evict.Evicted(s, s.mapping[c])
    case EvictRepo(id) => EvictedRepo(s, id, s')
    case Shutdown => s' == s && stopping
  }

  ghost predicate EvictedRepo(s: State, id: string, s': State) {
    exists ks ::
      && (forall k :: k in ks <==> k in s.mapping) && (forall i, j | 0 <= i < j < |ks| :: ks[i] != ks[j])
      && Evict.Selected(s.mapping, ks, id) != [] && s' == Evict.EvictedAll(s, Evict.Selected(s.mapping, ks, id))
  }

  /** Serves one request. The reply ends with one terminal event, and done is sent only when
      the command has had its effect. */
  method Handle(server: Server, n: Node, conn: Conn, req: Request, w: World, faults: Evict.Faults, ghost plan: Plan)
    requires Honest(n.View()) && Filed(n.View()) && Usable(w.im)
    modifies server, n, conn
    ensures Answered(old(conn.sent), conn.sent)
    ensures EndsWith(old(conn.sent), conn.sent, Done) ==> Meant(req, old(n.View()), n.View(), w, server.stopping)
    ensures Certain(req, old(n.View()), w, faults) ==> EndsWith(old(conn.sent), conn.sent, Done)
    ensures req.Ingest? && EndsWith(old(conn.sent), conn.sent, Done) ==> Certain(req, old(n.View()), w, faults)
    ensures server.stopping <==> old(server.stopping) || req.Shutdown?
    ensures req.Pull? && req.repoType.Some? && req.sources.Some? ==>
      RanAsPlanned(old(n.View()), n.View(), Chosen(req.options, req.repoType.value, req.sources.value), w, plan,
        EndsWith(old(conn.sent), conn.sent, Done))
  {
    ghost var swept;
    var ok: bool;
    match req {
      case Pull(t, src, o) => ok := HandlePull(n, conn, t, src, o, w, plan);
      case Ingest(id, t, c, ref) => ok := HandleIngest(n, conn, id, t, c, ref, w.im);
      case EvictCommit(c) =>
        ok := c in n.mapping;
        if ok { ok, swept := Evict.Commit(n, n.mapping[c], faults); }
        if ok { conn.Emit(Progress); }
      case EvictRepo(id) => ok := HandleEvictRepo(n, conn, id, faults);
      case List => HandleList(n, conn); ok := true;
      case Status => ok := true;
      case Shutdown => ok := true;
      case _ => ok := false;
    }
    if !(req.Pull? && ok) { conn.Emit(if ok then Done else Error); }
    if req.Shutdown? { server.stopping := true; }
  }

  /** The options with the type and the sources that the request names. */
  function Chosen(o: Options, t: RepoType, src: (bool, bool)): Options {
    o.(repoType := t, p2p := src.0, hf := src.1)
  }

  /** A pull reports its own success. */
  method HandlePull(n: Node, conn: Conn, t: Option<RepoType>, src: Option<(bool, bool)>, o: Options, w: World,
      ghost plan: Plan)
    returns (ok: bool)
    requires Honest(n.View()) && Usable(w.im)
    modifies n, conn
    ensures if ok then EndsWith(old(conn.sent), conn.sent, Done) else Quiet(old(conn.sent), conn.sent)
    ensures ok ==> t.Some? && src.Some?
    ensures ok ==> exists k :: IsTarget(o, w, k) && Available(n.View(), RepoDirName(o.repoId, t.value), k)
    ensures t.Some? && src.Some? ==>
      Pullable(old(n.View()), o.(repoType := t.value, p2p := src.value.0, hf := src.value.1), w) ==> ok
    ensures t.Some? && src.Some? ==>
      RanAsPlanned(old(n.View()), n.View(), Chosen(o, t.value, src.value), w, plan, ok)
  {
    if t.None? || src.None? { return false; }
    ghost var s := n.View();
    ghost var run;
    ok, run := Run(n, conn, Chosen(o, t.value, src.value), w, plan);
    if Pullable(s, Chosen(o, t.value, src.value), w) { PullableIsDone(s, Chosen(o, t.value, src.value), w, ok, run); }
    assert forall k :: IsTarget(Chosen(o, t.value, src.value), w, k) <==> IsTarget(o, w, k);
  }

  method HandleIngest(n: Node, conn: Conn, id: string, t: Option<RepoType>, commit: Option<string>, ref: string,
      im: Importer)
    returns (ok: bool)
    requires Honest(n.View()) && Usable(im)
    modifies n, conn
    ensures Quiet(old(conn.sent), conn.sent)
    ensures ok <==> t.Some? && Ingestible(old(n.View()), RepoDirName(id, t.value), commit, ref)
    ensures ok ==> exists k ::
      Named(old(n.View()), RepoDirName(id, t.value), commit, ref, k) && IsShared(n.View(), id, t.value, k)
  {
    if t.None? { return false; }
    var k := CommitToIngest(n.View(), RepoDirName(id, t.value), commit, ref);
    CommitIsNamed(n.View(), RepoDirName(id, t.value), commit, ref);
    if k.None? { return false; }
    ok := IngestRevision(n, id, t.value, k.value, im);
    if ok { conn.Emit(Progress); }
  }

  method HandleEvictRepo(n: Node, conn: Conn, id: string, faults: Evict.Faults) returns (ok: bool)
    requires Filed(n.View())
    modifies n, conn
    ensures Quiet(old(conn.sent), conn.sent)
    ensures ok ==> EvictedRepo(old(n.View()), id, n.View())
    ensures Evict.Evictable(old(n.mapping), id) && Healthy(faults) ==> ok
  {
    ghost var before, s := conn.sent, n.View();
    var count: nat;
    ghost var ks, swept;
    ok, count, ks, swept := Evict.Repo(n, id, faults);
    if ok { assert EvictedRepo(s, id, n.View()); }
    for i := 0 to count
      invariant Quiet(before, conn.sent)
      invariant ok ==> EvictedRepo(s, id, n.View())
    {
      conn.Emit(Progress);
    }
  }

  method HandleList(n: Node, conn: Conn)
    modifies conn
    ensures Quiet(old(conn.sent), conn.sent)
  {
    ghost var before := conn.sent;
    var ks := Evict.List(n.mapping);
    for i := 0 to |ks|
      invariant Quiet(before, conn.sent)
    {
      conn.Emit(Progress);
    }
  }

  // ---- The calling side ----

  /** The first terminal event is done, and the callback accepts all events up to it. */
  ghost predicate Succeeds(events: seq<Event>, accepts: nat -> bool) {
    exists i :: DoneAt(events, accepts, i)
  }

  predicate DoneAt(events: seq<Event>, accepts: nat -> bool, i: int) {
    && 0 <= i < |events| && events[i] == Done && (forall j | 0 <= j < i :: events[j] == Progress)
    && forall j | 0 <= j <= i :: accepts(j)
  }

  /** Reads the events that arrive before the connection ends. */
  method Call(events: seq<Event>, accepts: nat -> bool) returns (ok: bool)
    ensures ok <==> Succeeds(events, accepts)
  {
    for i := 0 to |events|
      invariant forall j | 0 <= j < i :: events[j] == Progress && accepts(j)
    {
      if !accepts(i) { return false; }
      if events[i] == Done {
        assert DoneAt(events, accepts, i);
        return true;
      }
      if events[i] == Error { return false; }
    }
    ok := false;
  }

  /** However much of a reply gets through, the caller reports success exactly when all of it
      did and the server said done. */
  lemma CallTrustsOnlyDone(reply: seq<Event>, arrived: nat, accepts: nat -> bool)
    requires Answered([], reply) && arrived <= |reply| && forall i :: accepts(i)
    ensures Succeeds(reply[..arrived], accepts) <==> arrived == |reply| && EndsWith([], reply, Done)
  {
    var m := |reply| - 1;
    forall i | 0 <= i < m ensures reply[i] == Progress { assert reply[..m][0..][i] in reply[..m][0..]; }
    if arrived == |reply| && reply[m] == Done {
      assert DoneAt(reply[..arrived], accepts, m);
    }
  }
}
