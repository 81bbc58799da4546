/** Rebuilding one file from its chunks: write, hash, register at running offsets, and
    publish by a rename; or take everything back. */
module Reconstruct {
  import opened Content
  import opened Graph
  import opened Store
  import opened References
  import opened Remote

  datatype Stage =
    | NoSha256 | CreateEmpty | EmptyLeaf | Enumerate | NoChunks
    | Create | Fetch | Chunk | Write | Register | Close | Hashing | Size | Rename | Chmod

  predicate BatchStage(s: Stage) {
    s.Fetch? || s.Chunk? || s.Write? || s.Register?
  }

  /** The stages whose failure is answered by the full rollback. */
  predicate StreamStage(s: Stage) {
    BatchStage(s) || s.Close? || s.Hashing? || s.Size? || s.Rename?
  }

  datatype Outcome = Cached | EmptyStored | Rebuilt | Failed(stage: Stage)

  /** Steps of the local machine that fail, the k-th chunk by its number. */
  datatype Faults = Faults(
    createEmpty: bool, create: bool, writes: set<nat>, registers: set<nat>,
    close: bool, rename: bool, chmod: bool, unstored: set<Cid>)

  const NO_FAULTS := Faults(false, false, {}, {}, false, false, false, {})

  class Transfer {
    var done: int

    constructor ()
      ensures done == 0
    {
      done := 0;
    }
  }

  function PartPath(repoDir: string, name: string, suffix: string): Path {
    BlobPath(repoDir, name + ".part-" + suffix)
  }

  lemma PartIsNotBlob(repoDir: string, name: string, suffix: string)
    ensures PartPath(repoDir, name, suffix) != BlobPath(repoDir, name)
    ensures PartPath(repoDir, "a", "b") == BlobPath(repoDir, "a.part-b")
  {
    assert |name + ".part-" + suffix| > |name|;
  }

  /** Disk and references once the first k leaves are written and registered. */
  ghost predicate Streamed(s: State, disk: Disk, refs: Refs, blob: Path, tmp: Path, leaves: seq<Cid>, k: nat)
    requires k <= |leaves|
  {
    disk == s.disk[tmp := Payload(leaves[..k])] && refs == Registered(s.blocks, s.refs, blob, leaves[..k])
  }

  /** What a rollback leaves after k registrations: the temporary file and every CID
      registered in this attempt are gone, from both stores; nothing else is touched. */
  ghost function RolledBack(s: State, tmp: Path, leaves: seq<Cid>, k: nat): State
    requires k <= |leaves|
  {
    s.(disk := s.disk - {tmp},
       refs := s.refs - CidSet(leaves[..k]),
       blocks := s.blocks - CidSet(leaves[..k]))
  }

  ghost function Published(s: State, blob: Path, tmp: Path, leaves: seq<Cid>): State {
    s.(disk := (s.disk - {tmp})[blob := Payload(leaves)], refs := Registered(s.blocks, s.refs, blob, leaves))
  }

  /** A failure after the rename: the references are taken back, the blob stays. */
  ghost function HalfPublished(s: State, blob: Path, tmp: Path, leaves: seq<Cid>): State {
    s.(disk := (s.disk - {tmp})[blob := Payload(leaves)],
       refs := s.refs - CidSet(leaves),
       blocks := s.blocks - CidSet(leaves))
  }

  /** The peer has answered each of them with the right block at least once. */
  ghost predicate Delivered(answers: (nat, Cid) -> Answer, cs: seq<Cid>) {
    forall i | 0 <= i < |cs| :: DeliveredOne(answers, cs[i])
  }

  ghost predicate DeliveredOne(answers: (nat, Cid) -> Answer, c: Cid) {
    exists k :: answers(k, c) == Sent(c.content)
  }

  /** Every chunk is answered with the right block. */
  ghost predicate AllHad(answers: (nat, Cid) -> Answer, leaves: seq<Cid>) {
    forall c | c in leaves :: Supplies(answers, c)
  }

  /** The same, save for what the temporary file holds. */
  ghost predicate Unfinished(s: State, disk: Disk, refs: Refs, blob: Path, tmp: Path, leaves: seq<Cid>, k: nat)
    requires k <= |leaves|
  {
    tmp in disk && disk == s.disk[tmp := disk[tmp]] && refs == Registered(s.blocks, s.refs, blob, leaves[..k])
  }

  /** Checks one answer, appends it to the temporary file and registers it. */
  method StreamChunk(n: Node, blob: Path, tmp: Path, leaves: seq<Cid>, k: nat, answer: Option<Block>, hashed: Bytes,
      state: Transfer, faults: Faults, ghost s: State)
    returns (stage: Option<Stage>, hashed': Bytes)
    requires k < |leaves| && IsRaw(leaves[k])
    requires n.blocks == s.blocks && Streamed(s, n.disk, n.refs, blob, tmp, leaves, k) && hashed == Payload(leaves[..k])
    modifies n`disk, n`refs, state
    ensures stage.None? ==> Streamed(s, n.disk, n.refs, blob, tmp, leaves, k + 1) && hashed' == Payload(leaves[..k + 1])
    ensures stage.Some? ==> Unfinished(s, n.disk, n.refs, blob, tmp, leaves, k) && hashed' == hashed
    ensures state.done == old(state.done) + |hashed'| - |hashed|
    ensures stage.Some? ==> BatchStage(stage.value)
    ensures stage.None? ==> answer == Some(leaves[k].content)
    ensures answer == Some(leaves[k].content) && k !in faults.writes && k !in faults.registers ==> stage.None?
  {
    stage, hashed' := None, hashed;
    if answer.None? || Hash(answer.value) != leaves[k] {
      stage := Some(Chunk);
    } else if k in faults.writes {
      stage := Some(Write);
    } else {
      var data := answer.value.data;
      n.disk := n.disk[tmp := n.disk[tmp] + data];
      if k in faults.registers {
        stage := Some(Register);
      } else {
        hashed' := hashed + data;
        n.refs := PutRef(n.blocks, n.refs, leaves[k], Ref(blob, |hashed|, |data|));
        state.done := state.done + |data|;
        StreamedOneMore(s, blob, tmp, leaves, k);
      }
    }
  }

  /** One batch of answers, for the chunks from number start on. */
  method StreamBatch(n: Node, blob: Path, tmp: Path, leaves: seq<Cid>, start: nat, datas: seq<Option<Block>>,
      hashed: Bytes, state: Transfer, faults: Faults, ghost s: State)
    returns (stage: Option<Stage>, registered: nat, hashed': Bytes)
    requires start + |datas| <= |leaves| && forall c | c in leaves :: IsRaw(c)
    requires n.blocks == s.blocks && Streamed(s, n.disk, n.refs, blob, tmp, leaves, start)
    requires hashed == Payload(leaves[..start])
    modifies n`disk, n`refs, state
    ensures start <= registered <= start + |datas| && hashed' == Payload(leaves[..registered])
    ensures stage.None? ==> registered == start + |datas| && Streamed(s, n.disk, n.refs, blob, tmp, leaves, registered)
    ensures stage.Some? ==> Unfinished(s, n.disk, n.refs, blob, tmp, leaves, registered)
    ensures stage.Some? ==> BatchStage(stage.value)
    ensures state.done == old(state.done) + |hashed'| - |hashed|
    ensures stage.None? ==> Right(datas, leaves[start..start + |datas|])
    ensures Right(datas, leaves[start..start + |datas|]) && faults.writes == {} && faults.registers == {}
      ==> stage.None?
  {
    stage, registered, hashed' := None, start, hashed;
    for i := 0 to |datas|
      invariant registered == start + i && stage.None? && hashed' == Payload(leaves[..registered])
      invariant Streamed(s, n.disk, n.refs, blob, tmp, leaves, registered)
      invariant state.done == old(state.done) + |hashed'| - |hashed|
      invariant forall j | 0 <= j < i :: datas[j] == Some(leaves[start..start + |datas|][j].content)
    {
      assert leaves[start..start + |datas|][i] == leaves[registered];
      stage, hashed' := StreamChunk(n, blob, tmp, leaves, registered, datas[i], hashed', state, faults, s);
      if stage.Some? { return; }
      registered := registered + 1;
    }
  }

  ghost predicate Right(datas: seq<Option<Block>>, cs: seq<Cid>)
    requires |datas| == |cs|
  {
    forall i | 0 <= i < |datas| :: datas[i] == Some(cs[i].content)
  }

  /** Asks for a batch. What comes back right has been delivered. */
  method AskBatch(peer: Peer, cs: seq<Cid>) returns (out: Option<seq<Option<Block>>>)
    requires |cs| <= BATCH_SIZE
    modifies peer
    ensures out.Some? ==> |out.value| == |cs| && (Right(out.value, cs) ==> Delivered(peer.answers, cs))
    ensures AllHad(peer.answers, cs) ==> out.Some? && Right(out.value, cs)
  {
    ghost var asked := peer.asked;
    out := peer.Fetch(cs);
    if out.Some? && Right(out.value, cs) {
      forall i | 0 <= i < |cs| ensures DeliveredOne(peer.answers, cs[i]) {
        assert out.value[i] == Received(peer.answers(asked + i, cs[i]));
      }
    }
    if AllHad(peer.answers, cs) {
      assert forall i | 0 <= i < |cs| :: cs[i] in cs && Supplies(peer.answers, cs[i]);
    }
  }

  lemma DeliveredJoin(answers: (nat, Cid) -> Answer, leaves: seq<Cid>, start: nat, end: nat)
    requires start <= end <= |leaves|
    ensures Delivered(answers, leaves[..start]) && Delivered(answers, leaves[start..end])
      ==> Delivered(answers, leaves[..end])
    ensures AllHad(answers, leaves) ==> AllHad(answers, leaves[start..end])
  {
    assert leaves[..end] == leaves[..start] + leaves[start..end];
  }

  /** Fetches the batch of chunks from number start on and streams it. */
  method FetchBatch(n: Node, blob: Path, tmp: Path, leaves: seq<Cid>, start: nat, peer: Peer, hashed: Bytes,
      state: Transfer, faults: Faults, ghost s: State)
    returns (stage: Option<Stage>, registered: nat, hashed': Bytes)
    requires start < |leaves| && forall c | c in leaves :: IsRaw(c)
    requires n.blocks == s.blocks && Streamed(s, n.disk, n.refs, blob, tmp, leaves, start)
    requires hashed == Payload(leaves[..start])
    modifies n`disk, n`refs, peer, state
    ensures start <= registered <= |leaves| && hashed' == Payload(leaves[..registered])
    ensures stage.None? ==> registered == if start + 64 > |leaves| then |leaves| else start + 64
    ensures stage.None? ==> registered > start && Streamed(s, n.disk, n.refs, blob, tmp, leaves, registered)
    ensures stage.Some? ==> Unfinished(s, n.disk, n.refs, blob, tmp, leaves, registered)
    ensures stage.Some? ==> BatchStage(stage.value)
    ensures state.done == old(state.done) + |hashed'| - |hashed|
    ensures stage.None? && Delivered(peer.answers, leaves[..start]) ==> Delivered(peer.answers, leaves[..registered])
    ensures AllHad(peer.answers, leaves) && faults.writes == {} && faults.registers == {} ==> stage.None?
  {
    var end := if start + BATCH_SIZE > |leaves| then |leaves| else start + BATCH_SIZE;
    DeliveredJoin(peer.answers, leaves, start, end);
    var datas := AskBatch(peer, leaves[start..end]);
    if datas.None? {
      return Some(Fetch), start, hashed;
    }
    stage, registered, hashed' := StreamBatch(n, blob, tmp, leaves, start, datas.value, hashed, state, faults, s);
  }

  /** What downloading the chunks may end as. */
  ghost predicate ChunkOutcome(s: State, s': State, blob: Path, tmp: Path, f: FileManifest, leaves: seq<Cid>,
      r: Outcome, k: nat)
  {
    match r
    case Rebuilt =>
      && k == |leaves| && s' == Published(s, blob, tmp, leaves)
      && f.sha256 == Sha256(Payload(leaves)) && f.size == |Payload(leaves)|
    case Failed(Create) => k == 0 && s' == s
    case Failed(Chmod) =>
      && k == |leaves| && s' == HalfPublished(s, blob, tmp, leaves)
      && f.sha256 == Sha256(Payload(leaves)) && f.size == |Payload(leaves)|
    case Failed(stage) => StreamStage(stage) && k <= |leaves| && s' == RolledBack(s, tmp, leaves, k)
    case _ => false
  }

  /** Downloads the chunks in batches into a temporary file and publishes it under blob. */
  method StreamChunks(n: Node, blob: Path, tmp: Path, f: FileManifest, leaves: seq<Cid>, peer: Peer, state: Transfer,
      faults: Faults)
    returns (r: Outcome, registered: nat)
    requires blob != tmp && forall c | c in leaves :: IsRaw(c)
    modifies n`disk, n`refs, n`blocks, peer, state
    ensures registered <= |leaves|
    ensures state.done == old(state.done) + |Payload(leaves[..registered])|
    ensures ChunkOutcome(old(n.View()), n.View(), blob, tmp, f, leaves, r, registered)
    ensures r.Rebuilt? ==> Delivered(peer.answers, leaves)
    ensures AllHad(peer.answers, leaves) && faults == NO_FAULTS
      ==> r == Verdict(f, Payload(leaves)) && registered == |leaves|
  {
    ghost var s := n.View();
    if faults.create { return Failed(Create), 0; }
    n.disk := n.disk[tmp := []];
    var stage, hashed;
    stage, registered, hashed := StreamAll(n, blob, tmp, leaves, peer, state, faults, s);
    if stage.Some? {
      Rollback(n, tmp, leaves, registered, s, blob);
      return Failed(stage.value), registered;
    }
    assert leaves[..|leaves|] == leaves;
    r := Publish(n, blob, tmp, f, leaves, hashed, faults, s);
  }

  /** The batches, up to the last or the first failure. */
  method StreamAll(n: Node, blob: Path, tmp: Path, leaves: seq<Cid>, peer: Peer, state: Transfer, faults: Faults,
      ghost s: State)
    returns (stage: Option<Stage>, registered: nat, hashed: Bytes)
    requires forall c | c in leaves :: IsRaw(c)
    requires n.blocks == s.blocks && Streamed(s, n.disk, n.refs, blob, tmp, leaves, 0)
    modifies n`disk, n`refs, peer, state
    ensures registered <= |leaves| && hashed == Payload(leaves[..registered])
    ensures state.done == old(state.done) + |hashed|
    ensures stage.None? ==> registered == |leaves| && Streamed(s, n.disk, n.refs, blob, tmp, leaves, registered)
    ensures stage.None? ==> Delivered(peer.answers, leaves)
    ensures stage.Some? ==> Unfinished(s, n.disk, n.refs, blob, tmp, leaves, registered) && BatchStage(stage.value)
    ensures AllHad(peer.answers, leaves) && faults.writes == {} && faults.registers == {} ==> stage.None?
  {
    stage, registered, hashed := None, 0, [];
    while registered < |leaves|
      invariant registered <= |leaves| && hashed == Payload(leaves[..registered]) && stage.None?
      invariant Streamed(s, n.disk, n.refs, blob, tmp, leaves, registered)
      invariant state.done == old(state.done) + |hashed|
      invariant Delivered(peer.answers, leaves[..registered])
    {
      stage, registered, hashed := FetchBatch(n, blob, tmp, leaves, registered, peer, hashed, state, faults, s);
      if stage.Some? { return; }
    }
    assert leaves[..|leaves|] == leaves;
  }

  /** How the verification of finished content ends. */
  function Verdict(f: FileManifest, data: Bytes): Outcome {
    if Sha256(data) != f.sha256 then Failed(Hashing)
    else if |data| != f.size then Failed(Size)
    else Rebuilt
  }

  /** Closes, verifies and renames the finished temporary file. */
  method Publish(n: Node, blob: Path, tmp: Path, f: FileManifest, leaves: seq<Cid>, hashed: Bytes, faults: Faults,
      ghost s: State)
    returns (r: Outcome)
    requires blob != tmp && n.View() == s.(disk := n.disk, refs := n.refs)
    requires Streamed(s, n.disk, n.refs, blob, tmp, leaves, |leaves|) && hashed == Payload(leaves)
    modifies n`disk, n`refs, n`blocks
    ensures r.Rebuilt? || (r.Failed? && (r.stage.Chmod? || StreamStage(r.stage)))
    ensures r.Rebuilt? ==> n.View() == Published(s, blob, tmp, leaves)
    ensures r.Rebuilt? || r.stage.Chmod? ==> f.sha256 == Sha256(Payload(leaves)) && f.size == |Payload(leaves)|
    ensures r.Failed? && r.stage != Chmod ==> n.View() == RolledBack(s, tmp, leaves, |leaves|)
    ensures r == Failed(Chmod) ==> n.View() == HalfPublished(s, blob, tmp, leaves)
    ensures !faults.close && !faults.rename && !faults.chmod ==> r == Verdict(f, hashed)
  {
    assert leaves[..|leaves|] == leaves;
    var stage := if faults.close then Some(Close)
                 else if Sha256(hashed) != f.sha256 then Some(Hashing)
                 else if |hashed| != f.size then Some(Size)
                 else if faults.rename then Some(Rename) else None;
    if stage.Some? {
      Rollback(n, tmp, leaves, |leaves|, s, blob);
      return Failed(stage.value);
    }
    n.disk := (n.disk - {tmp})[blob := n.disk[tmp]];
    assert n.disk == Published(s, blob, tmp, leaves).disk;
    if faults.chmod {
      Unregister(n, leaves, |leaves|, s, blob);
      return Failed(Chmod);
    }
    r := Rebuilt;
  }

  lemma StreamedOneMore(s: State, blob: Path, tmp: Path, leaves: seq<Cid>, k: nat)
    requires k < |leaves|
    ensures Payload(leaves[..k + 1]) == Payload(leaves[..k]) + Data(leaves[k])
    ensures Registered(s.blocks, s.refs, blob, leaves[..k + 1]) ==
      PutRef(s.blocks, Registered(s.blocks, s.refs, blob, leaves[..k]), leaves[k],
          Ref(blob, |Payload(leaves[..k])|, |Data(leaves[k])|))
  {
    assert leaves[..k + 1][..k] == leaves[..k];
  }

  /** Removes the temporary file and unregisters the chunks. */
  method Rollback(n: Node, tmp: Path, leaves: seq<Cid>, k: nat, ghost s: State, ghost blob: Path)
    requires k <= |leaves| && Unfinished(s, n.disk, n.refs, blob, tmp, leaves, k)
    requires n.View() == s.(disk := n.disk, refs := n.refs)
    modifies n`disk, n`refs, n`blocks
    ensures n.View() == RolledBack(s, tmp, leaves, k)
  {
    n.disk := n.disk - {tmp};
    Unregister(n, leaves, k, s, blob);
  }

  /** Deletes, from both stores, every CID registered so far. */
  method Unregister(n: Node, leaves: seq<Cid>, k: nat, ghost s: State, ghost blob: Path)
    requires k <= |leaves| && n.blocks == s.blocks && n.refs == Registered(s.blocks, s.refs, blob, leaves[..k])
    modifies n`refs, n`blocks
    ensures n.refs == s.refs - CidSet(leaves[..k]) && n.blocks == s.blocks - CidSet(leaves[..k])
  {
    RollbackRestoresIff(s.blocks, s.refs, blob, leaves[..k]);
    ghost var all := n.refs;
    for i := 0 to k
      invariant n.refs == all - CidSet(leaves[..i])
      invariant n.blocks == s.blocks - CidSet(leaves[..i])
    {
      CidSetOneMore(leaves, i);
      n.refs := n.refs - {leaves[i]};
      n.blocks := n.blocks - {leaves[i]};
    }
  }

  lemma CidSetOneMore(cs: seq<Cid>, i: nat)
    requires i < |cs|
    ensures CidSet(cs[..i + 1]) == CidSet(cs[..i]) + {cs[i]}
  {
  }

  /** The file is there with the size and the hash of its manifest. */
  predicate HasBlob(disk: Disk, repoDir: string, f: FileManifest) {
    var blob := BlobPath(repoDir, f.blobName);
    blob in disk && |disk[blob]| == f.size && Sha256(disk[blob]) == f.sha256
  }

  ghost function StoredEmpty(s: State, blob: Path, c: Cid): State {
    s.(disk := s.disk[blob := []], blocks := s.blocks[c := c.content])
  }

  /** What one file's reconstruction may end as; mid is the state once its nodes were
      fetched, k the number of chunks registered. */
  ghost predicate FileOutcome(s: State, s': State, repoDir: string, f: FileManifest, c: Cid, suffix: string,
      r: Outcome, mid: State, k: nat)
  {
    var blob, tmp := BlobPath(repoDir, f.blobName), PartPath(repoDir, f.blobName, suffix);
    && (r.Cached? <==> HasBlob(s.disk, repoDir, f))
    && if r.Cached? then s' == s
       else if r.EmptyStored? then s' == StoredEmpty(s, blob, c) && f.size == 0 && f.sha256 == BlockDigest(c.content)
       else if r.Failed? && EarlyStage(r.stage) then EarlyFailure(s, s', blob, f, c, r.stage, mid)
       else f.size != 0 && Grown(s, c, mid) && ChunkOutcome(mid, s', blob, tmp, f, Leaves(c), r, k)
  }

  /** The stages before the first chunk is asked for. */
  predicate EarlyStage(s: Stage) {
    s.NoSha256? || s.CreateEmpty? || s.EmptyLeaf? || s.Enumerate? || s.NoChunks?
  }

  ghost predicate EarlyFailure(s: State, s': State, blob: Path, f: FileManifest, c: Cid, stage: Stage, mid: State) {
    if stage.EmptyLeaf? then f.size == 0 && s' == s.(disk := s.disk[blob := []])
    else if stage.Enumerate? || stage.NoChunks? then Grown(s, c, mid) && s' == mid
    else s' == s
  }

  lemma LateOutcome(s: State, s': State, repoDir: string, f: FileManifest, c: Cid, suffix: string, r: Outcome,
      mid: State, k: nat)
    requires Grown(s, c, mid) && !HasBlob(s.disk, repoDir, f) && f.size != 0
    requires ChunkOutcome(mid, s', BlobPath(repoDir, f.blobName), PartPath(repoDir, f.blobName, suffix), f, Leaves(c),
        r, k)
    ensures FileOutcome(s, s', repoDir, f, c, suffix, r, mid, k) && (r.Rebuilt? || r.Failed?)
    ensures r.Rebuilt? ==> k == |Leaves(c)| && f.size == |Payload(Leaves(c))|
  {
  }

  /** The manifest describes the DAG below c: nothing but the machine or the peer can then
      make the reconstruction fail. */
  ghost predicate Describes(f: FileManifest, c: Cid, budget: nat) {
    && f.size == |Payload(Leaves(c))| && f.sha256 == Sha256(Payload(Leaves(c))) && |Leaves(c)| <= budget
    && (f.size == 0 ==> c == Hash(Raw([])))
  }

  ghost predicate Obtainable(blocks: Blocks, answers: (nat, Cid) -> Answer, c: Cid) {
    Resolvable(blocks, answers, c) && AllHad(answers, Leaves(c))
  }

  /** The DAG has leaves, and no more than the budget allows, all of it can be had, and the machine
      does not fail. */
  ghost predicate Smooth(blocks: Blocks, answers: (nat, Cid) -> Answer, c: Cid, budget: nat, faults: Faults) {
    0 < |Leaves(c)| <= budget && Obtainable(blocks, answers, c) && faults == NO_FAULTS
  }

  /** The file has content that has to be fetched. */
  predicate Wanted(f: FileManifest, disk: Disk, repoDir: string) {
    f.size != 0 && f.sha256 != NoDigest && !HasBlob(disk, repoDir, f)
  }

  /** An empty file is not found on disk, its leaf can be had, and it is the leaf that the hash is
      of. */
  ghost predicate EmptyOffered(f: FileManifest, disk: Disk, repoDir: string, answers: (nat, Cid) -> Answer, c: Cid,
      faults: Faults)
  {
    f.size == 0 && f.sha256 == BlockDigest(c.content) && !HasBlob(disk, repoDir, f) && Supplies(answers, c) &&
    faults == NO_FAULTS
  }

  /** Downloads one file, verifies it, writes the flat blob and references every chunk. */
  method ReconstructFile(n: Node, repoDir: string, f: FileManifest, c: Cid, peer: Peer, state: Transfer, budget: nat,
      suffix: string, faults: Faults)
    returns (r: Outcome, ghost mid: State, ghost k: nat)
    requires Honest(n.View())
    modifies n`disk, n`refs, n`blocks, peer, state
    ensures FileOutcome(old(n.View()), n.View(), repoDir, f, c, suffix, r, mid, k)
    ensures r.Rebuilt? ==> NodesStored(mid, c, faults.unstored) && Unfailed(old(n.View()), mid, faults.unstored)
    ensures r.Rebuilt? ==> Delivered(peer.answers, Leaves(c))
    ensures !r.Failed? ==> state.done == old(state.done) + f.size
    ensures Describes(f, c, budget) && Obtainable(old(n.blocks), peer.answers, c) && faults == NO_FAULTS ==> !r.Failed?
    ensures Wanted(f, old(n.disk), repoDir) && Smooth(old(n.blocks), peer.answers, c, budget, faults)
      ==> r == Verdict(f, Payload(Leaves(c))) && k == |Leaves(c)|
    ensures EmptyOffered(f, old(n.disk), repoDir, peer.answers, c, faults) ==> r.EmptyStored?
    ensures r.Cached? <==> var blob := BlobPath(repoDir, f.blobName);
      blob in old(n.disk) && |old(n.disk)[blob]| == f.size && Sha256(old(n.disk)[blob]) == f.sha256
  {
    mid, k := n.View(), 0;
    if f.sha256 == NoDigest { return Failed(NoSha256), mid, k; }
    var blob := BlobPath(repoDir, f.blobName);
    if HasBlob(n.disk, repoDir, f) {
      state.done := state.done + f.size;
      return Cached, mid, k;
    }
    if f.size == 0 {
      r := StoreEmpty(n, blob, f, c, peer, faults);
      return;
    }
    r, mid, k := RebuildChunks(n, repoDir, f, c, peer, state, budget, suffix, faults);
  }

  /** The case of a file with content: enumerate its chunks, then download them. */
  method RebuildChunks(n: Node, repoDir: string, f: FileManifest, c: Cid, peer: Peer, state: Transfer, budget: nat,
      suffix: string, faults: Faults)
    returns (r: Outcome, ghost mid: State, ghost k: nat)
    requires Honest(n.View()) && !HasBlob(n.disk, repoDir, f) && f.size != 0
    modifies n`disk, n`refs, n`blocks, peer, state
    ensures r.Rebuilt? || r.Failed?
    ensures FileOutcome(old(n.View()), n.View(), repoDir, f, c, suffix, r, mid, k)
    ensures r.Rebuilt? ==> NodesStored(mid, c, faults.unstored) && Unfailed(old(n.View()), mid, faults.unstored)
    ensures r.Rebuilt? ==> Delivered(peer.answers, Leaves(c)) && state.done == old(state.done) + f.size
    ensures Smooth(old(n.blocks), peer.answers, c, budget, faults)
      ==> r == Verdict(f, Payload(Leaves(c))) && k == |Leaves(c)|
  {
    k := 0;
    var leaves := new ChunkList();
    var ok := CollectLeaves(n, peer, c, leaves, budget, faults.unstored);
    mid := n.View();
    if !ok { return Failed(Enumerate), mid, k; }
    assert leaves.items == Leaves(c);
    if |leaves.items| == 0 { return Failed(NoChunks), mid, k; }
    PartIsNotBlob(repoDir, f.blobName, suffix);
    LeavesInDag(c);
    var cs := leaves.items;
    assert cs[..|cs|] == cs;
    r, k := StreamChunks(n, BlobPath(repoDir, f.blobName), PartPath(repoDir, f.blobName, suffix), f, cs, peer, state,
        faults);
    LateOutcome(old(n.View()), n.View(), repoDir, f, c, suffix, r, mid, k);
  }

  /** An empty file is a lone leaf, kept in the block store. Its blob is written before the
      leaf is fetched and checked. */
  method StoreEmpty(n: Node, blob: Path, f: FileManifest, c: Cid, peer: Peer, faults: Faults) returns (r: Outcome)
    requires f.size == 0
    modifies n`disk, n`blocks, peer
    ensures r in {EmptyStored, Failed(CreateEmpty), Failed(EmptyLeaf)}
    ensures r.EmptyStored? ==> n.View() == StoredEmpty(old(n.View()), blob, c) && f.sha256 == BlockDigest(c.content)
    ensures r == Failed(CreateEmpty) ==> n.View() == old(n.View())
    ensures r == Failed(EmptyLeaf) ==> n.View() == old(n.View()).(disk := old(n.disk)[blob := []])
    ensures !faults.createEmpty && Supplies(peer.answers, c) && f.sha256 == BlockDigest(c.content) ==> r.EmptyStored?
  {
    if faults.createEmpty { return Failed(CreateEmpty); }
    n.disk := n.disk[blob := []];
    var datas := peer.Fetch([c]);
    if datas.None? || datas.value[0].None? || Hash(datas.value[0].value) != c { return Failed(EmptyLeaf); }
    var b := datas.value[0].value;
    if BlockDigest(b) != f.sha256 { return Failed(EmptyLeaf); }
    n.blocks := n.blocks[c := b];
    r := EmptyStored;
  }
}
