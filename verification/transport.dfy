/** What a fetch over the block stream gives: the seeder's store answers through frames, and the
    client turns the bytes back into blocks. */
module Transport {
  import opened Content
  import opened Store
  import opened Remote
  import opened ProtoIO
  import BlockStream

  /** How CIDs, nodes and requests are written, each with its reading. */
  datatype Codec = Codec(
    text: Cid -> string, parse: string -> Option<Cid>,
    encodeNode: Block -> Bytes, decodeNode: Bytes -> Option<Block>,
    encodeRequest: seq<string> -> Bytes, decodeRequest: Bytes -> Option<seq<string>>)

  /** Reading undoes writing. */
  ghost predicate Faithful(codec: Codec) {
    && (forall c :: codec.parse(codec.text(c)) == Some(c))
    && (forall b: Block | b.Pb? :: codec.decodeNode(codec.encodeNode(b)) == Some(b))
    && (forall names :: codec.decodeRequest(codec.encodeRequest(names)) == Some(names))
  }

  function BytesOf(codec: Codec, b: Block): Bytes {
    if b.Raw? then b.data else codec.encodeNode(b)
  }

  /** The block the client reads from the bytes sent for c. */
  function BlockFrom(codec: Codec, c: Cid, data: Bytes): Block {
    if !IsRaw(c) && codec.decodeNode(data).Some? then codec.decodeNode(data).value else Raw(data)
  }

  function StoreLookup(s: State, codec: Codec, name: string): BlockStream.Reply {
    match codec.parse(name)
    case None => BlockStream.NotHere
    case Some(c) =>
      match Serve(s, c)
      case Found(b) => BlockStream.Present(BytesOf(codec, b))
      case Absent => BlockStream.NotHere
      case Broken => BlockStream.ReadFailure
  }

  /** The stream whose server reads from s. */
  function StreamOf(s: State, codec: Codec): BlockStream.Env {
    BlockStream.Env(codec.encodeRequest, codec.decodeRequest, name => StoreLookup(s, codec, name))
  }

  /** What the client is told about c: nothing when the server gives up on it. */
  function AnswerOver(s: State, codec: Codec, c: Cid): Answer {
    match BlockStream.Response(StreamOf(s, codec), codec.text(c))
    case None => Lost
    case Some(p) => if p == [] then Lost else AnswerIn(codec, c, BlockStream.Reading(p))
  }

  function AnswerIn(codec: Codec, c: Cid, data: Option<Bytes>): Answer {
    if data.None? then Missing else Sent(BlockFrom(codec, c, data.value))
  }

  /** The block is small enough for an answer frame. */
  predicate Fits(codec: Codec, b: Block) {
    |BytesOf(codec, b)| < MAX_FRAME
  }

  /** A store that serves c sends it exactly when it fits; otherwise the stream ends there, as it
      does at a reference whose bytes are not right. What the store does not have is said to be
      missing. */
  lemma ServedIsSentIff(s: State, codec: Codec, c: Cid)
    requires Faithful(codec) && (Serve(s, c).Found? ==> Serve(s, c) == Found(c.content))
    ensures AnswerOver(s, codec, c) ==
      match Serve(s, c)
      case Found(_) => (if Fits(codec, c.content) then Sent(c.content) else Lost)
      case Absent => Missing
      case Broken => Lost
  {
    var data := BytesOf(codec, c.content);
    assert ([BlockStream.BLOCK_OK] + data)[1..] == data;
  }

  function NamesOf(codec: Codec, cs: seq<Cid>): seq<string> {
    seq(|cs|, i requires 0 <= i < |cs| => codec.text(cs[i]))
  }

  /** The request for these CIDs fits a frame. */
  predicate RequestFits(codec: Codec, cs: seq<Cid>) {
    |codec.encodeRequest(NamesOf(codec, cs))| <= MAX_FRAME
  }

  ghost predicate BatchBelow(cs: seq<Cid>, root: Cid) {
    |cs| <= BATCH_SIZE && forall c | c in cs :: InDag(c, root)
  }

  /** So do the requests that a pull of root makes: for a batch of CIDs below it. */
  ghost predicate RequestsFit(codec: Codec, root: Cid) {
    forall cs | BatchBelow(cs, root) :: RequestFits(codec, cs)
  }

  /** What Remote.Peer.Fetch promises of a batch, for a peer that answers over the stream. */
  ghost predicate FetchPromise(s: State, codec: Codec, cs: seq<Cid>, out: Option<seq<Option<Block>>>) {
    && (out.Some? <==> forall i | 0 <= i < |cs| :: AnswerOver(s, codec, cs[i]) != Lost)
    && (out.Some? ==> |out.value| == |cs| && forall i | 0 <= i < |cs| ::
      out.value[i] == Received(AnswerOver(s, codec, cs[i])))
  }

  /** The blocks in the results of a batch. */
  function Decoded(codec: Codec, c: Cid, data: Option<Bytes>): Option<Block> {
    if data.None? then None else Some(BlockFrom(codec, c, data.value))
  }

  ghost predicate DecodesTo(codec: Codec, cs: seq<Cid>, results: seq<Option<Bytes>>, out: seq<Option<Block>>) {
    |results| == |cs| == |out| && forall i | 0 <= i < |cs| :: out[i] == Decoded(codec, cs[i], results[i])
  }

  lemma AnswerMeans(s: State, codec: Codec, c: Cid)
    ensures AnswerOver(s, codec, c) != Lost <==> BlockStream.Response(StreamOf(s, codec), codec.text(c)).Some?
    ensures AnswerOver(s, codec, c) != Lost ==>
      Received(AnswerOver(s, codec, c)) == Decoded(codec, c, BlockStream.Answer(StreamOf(s, codec), codec.text(c)))
  {
    var env := StreamOf(s, codec);
    if BlockStream.Response(env, codec.text(c)).Some? { BlockStream.ReadingOfResponse(env, codec.text(c)); }
  }

  /** A fetch succeeds exactly when the server can answer every CID of the batch, and then its
      blocks are those of the answers. */
  lemma FetchIsStream(s: State, codec: Codec, cs: seq<Cid>, out: Option<seq<Option<Block>>>)
    requires FetchPromise(s, codec, cs, out)
    ensures out.Some? <==> BlockStream.Answerable(StreamOf(s, codec), NamesOf(codec, cs))
    ensures out.Some? ==> DecodesTo(codec, cs, BlockStream.Answers(StreamOf(s, codec), NamesOf(codec, cs)), out.value)
  {
    var names := NamesOf(codec, cs);
    forall i | 0 <= i < |cs| ensures names[i] == codec.text(cs[i]) {}
    forall i | 0 <= i < |cs|
      ensures AnswerOver(s, codec, cs[i]) != Lost <==> BlockStream.Response(StreamOf(s, codec), names[i]).Some?
    {
      AnswerMeans(s, codec, cs[i]);
    }
    if out.Some? {
      forall i | 0 <= i < |cs|
        ensures out.value[i] == Decoded(codec, cs[i], BlockStream.Answers(StreamOf(s, codec), names)[i])
      {
        AnswerMeans(s, codec, cs[i]);
      }
    }
  }

  /** In every interleaving of client and server: the k-th batch, once finished, has given what
      the fetch promises, and a batch whose fetch fails never finishes. */
  lemma FinishedIsFetched(s: State, codec: Codec, batches: seq<seq<Cid>>, run: seq<BlockStream.System>,
      steps: seq<BlockStream.Step>, i: nat, k: nat, out: Option<seq<Option<Block>>>)
    requires Faithful(codec) && BlockStream.IsRun(StreamOf(s, codec), run, steps) && i < |run|
    requires run[0] == BlockStream.Start(seq(|batches|, b requires 0 <= b < |batches| => NamesOf(codec, batches[b])))
    requires k < |run[i].results| && k < |batches| && FetchPromise(s, codec, batches[k], out)
    ensures out.Some? && DecodesTo(codec, batches[k], run[i].results[k], out.value)
  {
    var all := seq(|batches|, b requires 0 <= b < |batches| => NamesOf(codec, batches[b]));
    assert BlockStream.Decodes(StreamOf(s, codec));
    BlockStream.FinishedBatchesRight(StreamOf(s, codec), all, run, steps, i);
    assert all[k] == NamesOf(codec, batches[k]);
    FetchIsStream(s, codec, batches[k], out);
  }

  /** The client can ask for the batch and the server can answer it. */
  ghost predicate Deliverable(s: State, codec: Codec, cs: seq<Cid>) {
    && |cs| <= BlockStream.MAX_BLOCK_BATCH && RequestFits(codec, cs)
    && BlockStream.Answerable(StreamOf(s, codec), NamesOf(codec, cs))
  }

  /** Every batch that a pull of root may ask for is deliverable when all blocks below it are
      served and fit. */
  lemma BatchesDeliverable(s: State, codec: Codec, root: Cid)
    requires Faithful(codec) && RequestsFit(codec, root)
    requires forall x | InDag(x, root) :: Serve(s, x) == Found(x.content) && Fits(codec, x.content)
    ensures forall cs | BatchBelow(cs, root) :: Deliverable(s, codec, cs)
  {
    forall cs | BatchBelow(cs, root) ensures Deliverable(s, codec, cs) {
      forall i | 0 <= i < |cs| ensures BlockStream.Response(StreamOf(s, codec), NamesOf(codec, cs)[i]).Some? {
        assert cs[i] in cs;
        ServedIsSentIff(s, codec, cs[i]);
        AnswerMeans(s, codec, cs[i]);
      }
    }
  }

  /** And the stream does get there: driven by any schedule, a deliverable batch gives what the
      fetch promises. */
  method FetchByStream(s: State, codec: Codec, cs: seq<Cid>) returns (out: seq<Option<Block>>)
    requires Faithful(codec) && Deliverable(s, codec, cs)
    ensures FetchPromise(s, codec, cs, Some(out))
  {
    ghost var names := NamesOf(codec, cs);
    var results := BlockStream.Drive(StreamOf(s, codec), [NamesOf(codec, cs)]);
    out := [];
    for i := 0 to |cs|
      invariant |out| == i
      invariant forall j | 0 <= j < i ::
        AnswerOver(s, codec, cs[j]) != Lost && out[j] == Received(AnswerOver(s, codec, cs[j]))
    {
      assert names[i] == codec.text(cs[i]);
      AnswerMeans(s, codec, cs[i]);
      out := out + [Decoded(codec, cs[i], results[0][i])];
    }
  }
}
