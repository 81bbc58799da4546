/** The block stream: a client that asks for batches of CIDs and a server that answers with
    one frame per CID, over two byte queues, in any interleaving of their steps. */
module BlockStream {
  import opened Content
  import opened ProtoIO

  type Name = string

  const BLOCK_OK: byte := 0
  const BLOCK_NOT_FOUND: byte := 1
  const MAX_BLOCK_BATCH := 1024

  /** What the server's store says about a requested name: its bytes; not there, which is
      also said of a name that is no CID; or a read failure. */
  datatype Reply = Present(data: Bytes) | NotHere | ReadFailure

  /** The request encoding, its inverse, and the server's store. */
  datatype Env = Env(encode: seq<Name> -> Bytes, decode: Bytes -> Option<seq<Name>>, lookup: Name -> Reply)

  ghost predicate Decodes(env: Env) {
    forall cs :: env.decode(env.encode(cs)) == Some(cs)
  }

  /** A byte queue: what the reader holds, and what is still on its way. */
  datatype Pipe = Pipe(buf: Bytes, wire: Bytes)

  function Written(p: Pipe, bytes: Bytes): Pipe {
    p.(wire := p.wire + bytes)
  }

  datatype Client = Ready | Awaiting(cs: seq<Name>, got: seq<Option<Bytes>>) | Failed

  datatype Server = Idle | Answering(todo: seq<Name>) | Stopped

  datatype System = System(
    batches: seq<seq<Name>>, results: seq<seq<Option<Bytes>>>,
    client: Client, server: Server, up: Pipe, down: Pipe)

  datatype Step = ClientSend | ClientRecv | ServerRecv | ServerSend | MoveUp | MoveDown | HangUp

  function Start(batches: seq<seq<Name>>): System {
    System(batches, [], Ready, Idle, Pipe([], []), Pipe([], []))
  }

  /** The answer frame's payload, when the server gets to send one. */
  function Response(env: Env, c: Name): Option<Bytes> {
    match env.lookup(c)
    case Present(data) => if |data| + 1 > MAX_FRAME then None else Some([BLOCK_OK] + data)
    case NotHere => Some([BLOCK_NOT_FOUND])
    case ReadFailure => None
  }

  /** What can be answered: that a name is not there, or bytes that fit a frame with one more. */
  predicate Sendable(r: Reply) {
    r.NotHere? || (r.Present? && |r.data| < 8388608)
  }

  /** What the client makes of an answer: any status but not-found carries the bytes. */
  function Reading(payload: Bytes): Option<Bytes>
    requires payload != []
  {
    if payload[0] != BLOCK_NOT_FOUND then Some(payload[1..]) else None
  }

  /** One step of the client, the server or the transport; None when it cannot be taken. */
  function Next(env: Env, s: System, step: Step): Option<System> {
    match step
    case ClientSend => ClientSends(env, s)
    case ClientRecv => ClientReceives(s)
    case ServerRecv => ServerReceives(env, s)
    case ServerSend => ServerSends(env, s)
    case MoveUp => if s.up.wire == [] then None else Some(s.(up := Moved(s.up)))
    case MoveDown => if s.down.wire == [] then None else Some(s.(down := Moved(s.down)))
    case HangUp =>
      if s.client.Awaiting? && s.server.Stopped? && s.down.wire == [] && Parse(s.down.buf).Incomplete?
      then Some(s.(client := Failed)) else None
  }

  /** One byte arrives. */
  function Moved(p: Pipe): Pipe
    requires p.wire != []
  {
    Pipe(p.buf + [p.wire[0]], p.wire[1..])
  }

  function ClientSends(env: Env, s: System): Option<System> {
    if !s.client.Ready? || s.batches == [] then None
    else
      var cs, rest := s.batches[0], s.batches[1..];
      if cs == [] then Some(s.(batches := rest, results := s.results + [[]]))
      else if |env.encode(cs)| > MAX_FRAME then Some(s.(client := Failed))
      else Some(s.(batches := rest, client := Awaiting(cs, []), up := Written(s.up, Frame(env.encode(cs)))))
  }

  function ClientReceives(s: System): Option<System> {
    if !s.client.Awaiting? then None
    else
      match Parse(s.down.buf)
      case Incomplete => None
      case TooLarge => Some(s.(client := Failed))
      case Got(payload, rest) =>
        if payload == [] then Some(s.(client := Failed))
        else
          var got := s.client.got + [Reading(payload)];
          var down := s.down.(buf := rest);
          if |got| < |s.client.cs| then Some(s.(client := s.client.(got := got), down := down))
          else Some(s.(client := Ready, results := s.results + [got], down := down))
  }

  function ServerReceives(env: Env, s: System): Option<System> {
    if !s.server.Idle? then None
    else
      match Parse(s.up.buf)
      case Incomplete => None
      case TooLarge => Some(s.(server := Stopped))
      case Got(payload, rest) =>
        var names := env.decode(payload);
        var up := s.up.(buf := rest);
        if names.None? || |names.value| > MAX_BLOCK_BATCH then Some(s.(server := Stopped, up := up))
        else Some(s.(server := Serving(names.value), up := up))
  }

  function Serving(todo: seq<Name>): Server {
    if todo == [] then Idle else Answering(todo)
  }

  function ServerSends(env: Env, s: System): Option<System> {
    if !s.server.Answering? || s.server.todo == [] then None
    else
      var r := Response(env, s.server.todo[0]);
      if r.None? then Some(s.(server := Stopped))
      else Some(s.(server := Serving(s.server.todo[1..]), down := Written(s.down, Frame(r.value))))
  }

  // ---- On the wire ----

  /** The server takes a request for up to 1024 names, and stops at a longer one. */
  lemma RequestTaken(env: Env, s: System, names: seq<Name>, rest: Bytes)
    requires Decodes(env) && s.server.Idle? && |env.encode(names)| <= MAX_FRAME
    requires s.up.buf == Frame(env.encode(names)) + rest
    ensures Next(env, s, ServerRecv) == Some(s.(up := Pipe(rest, s.up.wire), server :=
        if |names| > 1024 then Stopped else if names == [] then Idle else Answering(names)))
  {
    FrameRoundTrip(env.encode(names), rest);
  }

  /** The answer is a frame of a zero and the bytes, or of a one alone. Bytes that do not fit, and
      a read that fails, stop the server. */
  lemma AnswerWritten(env: Env, s: System)
    requires s.server.Answering? && s.server.todo != []
    ensures var reply, next := env.lookup(s.server.todo[0]), Next(env, s, ServerSend);
      if !Sendable(reply) then next == Some(s.(server := Stopped))
      else next.Some? && next.value == s.(server := next.value.server, down := Pipe(s.down.buf, s.down.wire +
        Frame(if reply.Present? then [0] + reply.data else [1])))
  {
  }

  /** A client takes any first byte but a one for a block. */
  lemma AnswerTaken(env: Env, s: System, payload: Bytes, rest: Bytes)
    requires s.client.Awaiting? && payload != [] && |payload| <= MAX_FRAME && s.down.buf == Frame(payload) + rest
    ensures var got := s.client.got + [if payload[0] == 1 then None else Some(payload[1..])];
      Next(env, s, ClientRecv) == Some(
        if |got| < |s.client.cs| then s.(client := Awaiting(s.client.cs, got), down := Pipe(rest, s.down.wire))
        else s.(client := Ready, results := s.results + [got], down := Pipe(rest, s.down.wire)))
  {
    FrameRoundTrip(payload, rest);
  }

  /** A frame that is announced too long ends the stream for whoever reads it. */
  lemma LongFramesRefused(env: Env, s: System)
    ensures s.server.Idle? && |s.up.buf| >= 4 && HeaderValue(s.up.buf[..4]) > 8388608
      ==> Next(env, s, ServerRecv) == Some(s.(server := Stopped))
    ensures s.client.Awaiting? && |s.down.buf| >= 4 && HeaderValue(s.down.buf[..4]) > 8388608
      ==> Next(env, s, ClientRecv) == Some(s.(client := Failed))
  {
  }

  // ---- What every reachable state looks like ----

  /** The right result for one CID, for those the server can answer. */
  function Answer(env: Env, c: Name): Option<Bytes> {
    match env.lookup(c)
    case Present(data) => Some(data)
    case _ => None
  }

  ghost function Answers(env: Env, cs: seq<Name>): seq<Option<Bytes>> {
    seq(|cs|, i requires 0 <= i < |cs| => Answer(env, cs[i]))
  }

  /** The server can answer each of them. */
  ghost predicate Answerable(env: Env, cs: seq<Name>) {
    forall i | 0 <= i < |cs| :: Response(env, cs[i]).Some?
  }

  /** The answer frames for a list of CIDs, one after the other. */
  ghost function Frames(env: Env, cs: seq<Name>): Bytes
    requires Answerable(env, cs)
  {
    if cs == [] then [] else Frame(Response(env, cs[0]).value) + Frames(env, cs[1..])
  }

  ghost function Stream(p: Pipe): Bytes {
    p.buf + p.wire
  }

  /** The m-th answer is the next to be sent, those before it that the client has not read
      are on their way, and nothing else is. A batch that is too long is never answered. */
  ghost predicate InFlight(env: Env, s: System, m: nat)
    requires s.client.Awaiting?
  {
    var cs, g := s.client.cs, |s.client.got|;
    && g <= m <= |cs| && Answerable(env, cs[g..m])
    && Stream(s.up) == [] && Stream(s.down) == Frames(env, cs[g..m])
    && (s.server == Serving(cs[m..]) || (s.server.Stopped? && m < |cs|))
    && (|cs| <= MAX_BLOCK_BATCH || (s.server.Stopped? && m == 0))
  }

  ghost predicate Requested(env: Env, s: System)
    requires s.client.Awaiting?
  {
    && s.client.got == [] && s.server.Idle? && Stream(s.down) == []
    && |env.encode(s.client.cs)| <= MAX_FRAME && Stream(s.up) == Frame(env.encode(s.client.cs))
  }

  /** all is the list of batches the client was given. Finished ones have the right results,
      and the byte queues hold exactly the frames of the batch under way. */
  ghost predicate Inv(env: Env, all: seq<seq<Name>>, s: System) {
    var k := |s.results|;
    && k <= |all| && (forall i | 0 <= i < k ::
      s.results[i] == Answers(env, all[i]) && Answerable(env, all[i]) && |all[i]| <= MAX_BLOCK_BATCH)
    && match s.client
       case Failed => true
       case Ready => s.batches == all[k..] && s.server.Idle? && Stream(s.up) == [] && Stream(s.down) == []
       case Awaiting(cs, got) =>
         && k < |all| && cs == all[k] && s.batches == all[k + 1..]
         && |got| < |cs| && got == Answers(env, cs[..|got|]) && Answerable(env, cs[..|got|])
         && (Requested(env, s) || exists m: nat :: InFlight(env, s, m))
  }

  lemma {:induction false} FramesSnoc(env: Env, cs: seq<Name>, c: Name)
    requires Answerable(env, cs) && Response(env, c).Some?
    ensures Answerable(env, cs + [c])
    ensures Frames(env, cs + [c]) == Frames(env, cs) + Frame(Response(env, c).value)
    decreases |cs|
  {
    if cs == [] {
      assert cs + [c] == [c] && [c][1..] == [];
    } else {
      assert (cs + [c])[1..] == cs[1..] + [c];
      FramesSnoc(env, cs[1..], c);
    }
  }

  lemma ReadingOfResponse(env: Env, c: Name)
    requires Response(env, c).Some?
    ensures var r := Response(env, c).value; r != [] && |r| <= MAX_FRAME && Reading(r) == Answer(env, c)
  {
  }

  lemma AnswersSnoc(env: Env, cs: seq<Name>, g: nat)
    requires g < |cs|
    ensures Answers(env, cs[..g + 1]) == Answers(env, cs[..g]) + [Answer(env, cs[g])]
  {
  }

  /** What the client finds at the front of its queue. */
  lemma NextAnswer(env: Env, s: System, m: nat)
    requires s.client.Awaiting? && InFlight(env, s, m) && |s.client.got| < |s.client.cs|
    ensures Parse(s.down.buf).Incomplete? || (|s.client.got| < m && Parse(s.down.buf).Got?)
    ensures |s.client.got| < m && s.down.wire == [] ==> Parse(s.down.buf).Got?
    ensures Parse(s.down.buf).Got? ==>
      (var cs, g, p := s.client.cs, |s.client.got|, Parse(s.down.buf);
       && p.payload != [] && Reading(p.payload) == Answer(env, cs[g]) && Response(env, cs[g]).Some?
       && Answerable(env, cs[g + 1..m]) && p.rest + s.down.wire == Frames(env, cs[g + 1..m]))
  {
    var cs, g := s.client.cs, |s.client.got|;
    EmptyStream(s.down);
    if g < m {
      var rest := cs[g + 1..m];
      assert cs[g..m][0] == cs[g] && cs[g..m][1..] == rest;
      ReadingOfResponse(env, cs[g]);
      ParseArriving(s.down.buf, s.down.wire, Response(env, cs[g]).value, Frames(env, rest));
    }
  }

  /** Reading the next answer of the batch under way. */
  lemma ClientReceivesNext(env: Env, all: seq<seq<Name>>, s: System, s': System, m: nat)
    requires Inv(env, all, s) && s.client.Awaiting? && InFlight(env, s, m) && ClientReceives(s) == Some(s')
    ensures Inv(env, all, s')
  {
    var cs, g := s.client.cs, |s.client.got|;
    NextAnswer(env, s, m);
    if g + 1 == |cs| {
      BatchFinishes(env, all, s, s', m);
    } else {
      NextStillInFlight(env, s, s', m);
      GotOneMore(env, s, m);
    }
  }

  lemma GotOneMore(env: Env, s: System, m: nat)
    requires s.client.Awaiting? && InFlight(env, s, m) && |s.client.got| < |s.client.cs| && Parse(s.down.buf).Got?
    requires s.client.got == Answers(env, s.client.cs[..|s.client.got|])
    requires Answerable(env, s.client.cs[..|s.client.got|])
    ensures Parse(s.down.buf).payload != []
    ensures s.client.got + [Reading(Parse(s.down.buf).payload)] == Answers(env, s.client.cs[..|s.client.got| + 1])
    ensures Answerable(env, s.client.cs[..|s.client.got| + 1])
  {
    var cs, g := s.client.cs, |s.client.got|;
    NextAnswer(env, s, m);
    AnswersSnoc(env, cs, g);
    assert cs[..g + 1] == cs[..g] + [cs[g]];
  }

  lemma BatchFinishes(env: Env, all: seq<seq<Name>>, s: System, s': System, m: nat)
    requires Inv(env, all, s) && s.client.Awaiting? && InFlight(env, s, m) && |s.client.got| + 1 == |s.client.cs|
    requires ClientReceives(s) == Some(s')
    ensures Inv(env, all, s')
  {
    LastAnswerRead(env, s, s', m);
    assert all[|s.results| + 1..] == s.batches;
  }

  lemma LastAnswerRead(env: Env, s: System, s': System, m: nat)
    requires s.client.Awaiting? && InFlight(env, s, m) && |s.client.got| + 1 == |s.client.cs|
    requires ClientReceives(s) == Some(s')
    requires s.client.got == Answers(env, s.client.cs[..|s.client.got|])
    requires Answerable(env, s.client.cs[..|s.client.got|])
    ensures s' == s.(client := Ready, results := s.results + [Answers(env, s.client.cs)], down := s'.down)
    ensures Answerable(env, s.client.cs) && s.server.Idle? && Stream(s'.up) == [] && Stream(s'.down) == []
  {
    var cs, g := s.client.cs, |s.client.got|;
    NextAnswer(env, s, m);
    AnswersSnoc(env, cs, g);
    assert cs[..g + 1] == cs && cs[g + 1..m] == [] && cs[m..] == [];
  }

  lemma NextStillInFlight(env: Env, s: System, s': System, m: nat)
    requires s.client.Awaiting? && InFlight(env, s, m) && |s.client.got| + 1 < |s.client.cs|
    requires Parse(s.down.buf).Got? && Parse(s.down.buf).payload != [] && ClientReceives(s) == Some(s')
    ensures InFlight(env, s', m)
  {
    NextAnswer(env, s, m);
  }

  /** What the server finds at the front of its queue. */
  lemma RequestArrives(env: Env, s: System)
    requires s.client.Awaiting? && Requested(env, s)
    ensures var p := Parse(s.up.buf);
      p.Incomplete? || (p.Got? && p.payload == env.encode(s.client.cs) && p.rest + s.up.wire == [])
    ensures s.up.wire == [] ==> Parse(s.up.buf).Got?
  {
    var request := env.encode(s.client.cs);
    assert Frame(request) + [] == Frame(request);
    ParseArriving(s.up.buf, s.up.wire, request, []);
  }

  lemma ServerReceivesBatch(env: Env, all: seq<seq<Name>>, s: System, s': System)
    requires Decodes(env) && Inv(env, all, s) && s.client.Awaiting? && Requested(env, s)
    requires ServerReceives(env, s) == Some(s')
    ensures Inv(env, all, s')
  {
    var cs := s.client.cs;
    RequestArrives(env, s);
    assert cs[0..] == cs && cs[0..0] == [];
    assert InFlight(env, s', 0);
  }

  lemma ServerSendsNext(env: Env, all: seq<seq<Name>>, s: System, s': System, m: nat)
    requires Inv(env, all, s) && s.client.Awaiting? && InFlight(env, s, m) && ServerSends(env, s) == Some(s')
    ensures Inv(env, all, s')
  {
    var m' := AnswerSent(env, s, s', m);
    assert InFlight(env, s', m');
  }

  /** One answer more is in flight, or the server has stopped before it. */
  lemma AnswerSent(env: Env, s: System, s': System, m: nat) returns (m': nat)
    requires s.client.Awaiting? && InFlight(env, s, m) && ServerSends(env, s) == Some(s')
    ensures s'.client == s.client && InFlight(env, s', m')
  {
    var cs, g := s.client.cs, |s.client.got|;
    assert m < |cs| && s.server.todo == cs[m..] && cs[m..][0] == cs[m] && cs[m..][1..] == cs[m + 1..];
    m' := m;
    if Response(env, cs[m]).Some? {
      FramesOneMore(env, cs, g, m);
      var frame := Frame(Response(env, cs[m]).value);
      WrittenToStream(s.down, frame);
      assert s' == s.(server := Serving(cs[m + 1..]), down := Written(s.down, frame));
      m' := m + 1;
    }
  }

  lemma FramesOneMore(env: Env, cs: seq<Name>, g: nat, m: nat)
    requires g <= m < |cs| && Answerable(env, cs[g..m]) && Response(env, cs[m]).Some?
    ensures Answerable(env, cs[g..m + 1])
    ensures Frames(env, cs[g..m + 1]) == Frames(env, cs[g..m]) + Frame(Response(env, cs[m]).value)
  {
    assert cs[g..m + 1] == cs[g..m] + [cs[m]];
    FramesSnoc(env, cs[g..m], cs[m]);
  }

  lemma WrittenToStream(p: Pipe, bytes: Bytes)
    ensures Stream(Written(p, bytes)) == Stream(p) + bytes
  {
  }

  lemma EmptyStream(p: Pipe)
    ensures Stream(p) == [] ==> p.buf == [] && p.wire == []
  {
  }

  lemma MoveKeepsStream(p: Pipe)
    requires p.wire != []
    ensures Stream(Moved(p)) == Stream(p)
  {
  }

  lemma MoveKeepsInv(env: Env, all: seq<seq<Name>>, s: System, s': System)
    requires Inv(env, all, s) && s' == s.(up := s'.up, down := s'.down)
    requires Stream(s'.up) == Stream(s.up) && Stream(s'.down) == Stream(s.down)
    ensures Inv(env, all, s')
  {
    if s.client.Awaiting? && !Requested(env, s) {
      var m: nat :| InFlight(env, s, m);
      assert InFlight(env, s', m);
    }
  }

  lemma ClientSendsBatch(env: Env, all: seq<seq<Name>>, s: System, s': System)
    requires Inv(env, all, s) && ClientSends(env, s) == Some(s')
    ensures Inv(env, all, s')
  {
  }

  /** Whatever step is taken next, finished batches have the right results and the queues stay
      aligned with the batch under way. */
  lemma StepKeepsInv(env: Env, all: seq<seq<Name>>, s: System, step: Step, s': System)
    requires Decodes(env) && Inv(env, all, s) && Next(env, s, step) == Some(s')
    ensures Inv(env, all, s')
  {
    match step
    case ClientSend => ClientSendsBatch(env, all, s, s');
    case MoveUp => MoveKeepsStream(s.up); MoveKeepsInv(env, all, s, s');
    case MoveDown => MoveKeepsStream(s.down); MoveKeepsInv(env, all, s, s');
    case HangUp =>
    case ClientRecv =>
      EmptyStream(s.down);
      if !Requested(env, s) {
        var m: nat :| InFlight(env, s, m);
        ClientReceivesNext(env, all, s, s', m);
      }
    case ServerRecv =>
      EmptyStream(s.up);
      if s.client.Awaiting? && Requested(env, s) {
        ServerReceivesBatch(env, all, s, s');
      }
    case ServerSend =>
      if s.client.Awaiting? {
        var m: nat :| InFlight(env, s, m);
        ServerSendsNext(env, all, s, s', m);
      }
  }

  /** A run of the system: every state follows from the one before by some step. */
  ghost predicate IsRun(env: Env, run: seq<System>, steps: seq<Step>) {
    |run| == |steps| + 1 && forall i | 0 <= i < |steps| :: Next(env, run[i], steps[i]) == Some(run[i + 1])
  }

  /** In every interleaving, whatever the store says: once a batch is finished, its i-th
      result is what the store has for its i-th CID. */
  lemma {:induction false} FinishedBatchesRight(env: Env, all: seq<seq<Name>>, run: seq<System>, steps: seq<Step>,
      i: nat)
    requires Decodes(env) && IsRun(env, run, steps) && run[0] == Start(all) && i < |run|
    ensures Inv(env, all, run[i])
    ensures |run[i].results| <= |all|
    ensures forall k | 0 <= k < |run[i].results| :: run[i].results[k] == Answers(env, all[k]) && Answerable(env, all[k])
    ensures forall k | 0 <= k < |run[i].results| ::
      |all[k]| <= 1024 && forall j | 0 <= j < |all[k]| :: Sendable(env.lookup(all[k][j]))
    decreases i
  {
    if i > 0 {
      FinishedBatchesRight(env, all, run, steps, i - 1);
      StepKeepsInv(env, all, run[i - 1], steps[i - 1], run[i]);
    }
    forall k, j | 0 <= k < |run[i].results| && 0 <= j < |all[k]| ensures Sendable(env.lookup(all[k][j])) {
      assert Response(env, all[k][j]).Some?;
    }
  }

  // ---- Completion ----

  /** The batches the protocol is made for: small enough to ask for, of blocks small enough to
      send whose reads do not fail. */
  ghost predicate Qualify(env: Env, all: seq<seq<Name>>) {
    forall i | 0 <= i < |all| ::
      |all[i]| <= MAX_BLOCK_BATCH && |env.encode(all[i])| <= MAX_FRAME && Answerable(env, all[i])
  }

  ghost predicate Healthy(s: System) {
    !s.client.Failed? && !s.server.Stopped?
  }

  lemma StepKeepsHealthy(env: Env, all: seq<seq<Name>>, s: System, step: Step, s': System)
    requires Decodes(env) && Qualify(env, all) && Inv(env, all, s) && Healthy(s) && Next(env, s, step) == Some(s')
    ensures Healthy(s')
  {
    match step
    case ClientRecv => ClientStaysHealthy(env, all, s);
    case ServerRecv =>
      EmptyStream(s.up);
      if s.client.Awaiting? && Requested(env, s) { RequestArrives(env, s); }
    case ServerSend =>
      if s.client.Awaiting? {
        var m: nat :| InFlight(env, s, m);
        if m < |s.client.cs| { assert s.client.cs[m..][0] == s.client.cs[m]; }
      }
    case _ =>
  }

  lemma ClientStaysHealthy(env: Env, all: seq<seq<Name>>, s: System)
    requires Inv(env, all, s) && s.client.Awaiting?
    ensures Parse(s.down.buf).Incomplete? || (Parse(s.down.buf).Got? && Parse(s.down.buf).payload != [])
  {
    EmptyStream(s.down);
    if !Requested(env, s) {
      var m: nat :| InFlight(env, s, m);
      NextAnswer(env, s, m);
    }
  }

  /** Until all batches are finished, some step can be taken. */
  lemma NeverStuck(env: Env, all: seq<seq<Name>>, s: System) returns (step: Step)
    requires Decodes(env) && Qualify(env, all) && Inv(env, all, s) && Healthy(s)
    requires |s.results| < |all|
    ensures Next(env, s, step).Some?
  {
    if s.client.Ready? {
      step := ClientSend;
    } else if s.up.wire != [] {
      step := MoveUp;
    } else if s.down.wire != [] {
      step := MoveDown;
    } else if Requested(env, s) {
      RequestArrives(env, s);
      step := ServerRecv;
    } else {
      var m: nat :| InFlight(env, s, m);
      step := AnswerDue(env, s, m);
    }
  }

  /** With nothing on its way, either an answer can be read or the next one can be sent. */
  lemma AnswerDue(env: Env, s: System, m: nat) returns (step: Step)
    requires s.client.Awaiting? && InFlight(env, s, m) && |s.client.got| < |s.client.cs|
    requires Healthy(s) && s.down.wire == []
    ensures Next(env, s, step).Some?
  {
    NextAnswer(env, s, m);
    if m > |s.client.got| {
      step := ClientRecv;
    } else {
      assert s.client.cs[m..] != [];
      step := ServerSend;
    }
  }

  /** Work left: batches, a request not read yet, answers not sent, answers not read, bytes
      on their way. */
  ghost function Rank(env: Env, s: System): (nat, nat, nat, nat, nat) {
    (|s.batches|,
     if s.client.Awaiting? && Requested(env, s) then 1 else 0,
     if s.server.Answering? then |s.server.todo| else 0,
     if s.client.Awaiting? && |s.client.got| <= |s.client.cs| then |s.client.cs| - |s.client.got| else 0,
     |s.up.wire| + |s.down.wire|)
  }

  predicate Below(a: (nat, nat, nat, nat, nat), b: (nat, nat, nat, nat, nat)) {
    a.0 < b.0 || (a.0 == b.0 &&
    (a.1 < b.1 || (a.1 == b.1 &&
    (a.2 < b.2 || (a.2 == b.2 &&
    (a.3 < b.3 || (a.3 == b.3 &&
     a.4 < b.4)))))))
  }

  lemma StepLowersRank(env: Env, all: seq<seq<Name>>, s: System, step: Step, s': System)
    requires Decodes(env) && Qualify(env, all) && Inv(env, all, s) && Healthy(s) && Next(env, s, step) == Some(s')
    ensures Below(Rank(env, s'), Rank(env, s))
  {
    match step
    case ClientSend =>
    case MoveUp => MoveKeepsStream(s.up);
    case MoveDown => MoveKeepsStream(s.down);
    case HangUp =>
    case ClientRecv => ReadingLowersRank(env, all, s, s');
    case ServerRecv => ReceivingLowersRank(env, all, s, s');
    case ServerSend =>
  }

  lemma ReadingLowersRank(env: Env, all: seq<seq<Name>>, s: System, s': System)
    requires Inv(env, all, s) && Healthy(s) && ClientReceives(s) == Some(s')
    ensures Below(Rank(env, s'), Rank(env, s))
  {
    EmptyStream(s.down);
  }

  lemma ReceivingLowersRank(env: Env, all: seq<seq<Name>>, s: System, s': System)
    requires Decodes(env) && Qualify(env, all) && Inv(env, all, s) && Healthy(s) && ServerReceives(env, s) == Some(s')
    ensures Below(Rank(env, s'), Rank(env, s))
  {
    EmptyStream(s.up);
    if s.client.Awaiting? && Requested(env, s) {
      RequestArrives(env, s);
    }
  }

  /** Runs the system to the end, taking any step that can be taken at each point. */
  method Drive(env: Env, all: seq<seq<Name>>) returns (results: seq<seq<Option<Bytes>>>)
    requires Decodes(env) && Qualify(env, all)
    ensures |results| == |all| && forall k | 0 <= k < |all| :: results[k] == Answers(env, all[k])
  {
    var s := Start(all);
    while |s.results| < |all|
      invariant Inv(env, all, s) && Healthy(s)
      decreases Rank(env, s).0, Rank(env, s).1, Rank(env, s).2, Rank(env, s).3, Rank(env, s).4
    {
      ghost var able := NeverStuck(env, all, s);
      var step :| Next(env, s, step).Some?;
      StepKeepsInv(env, all, s, step, Next(env, s, step).value);
      StepKeepsHealthy(env, all, s, step, Next(env, s, step).value);
      StepLowersRank(env, all, s, step, Next(env, s, step).value);
      s := Next(env, s, step).value;
    }
    results := s.results;
  }
}
