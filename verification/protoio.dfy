/** Length-prefixed frames: four bytes of big-endian length, then the payload. */
module ProtoIO {
  import opened Content

  const MAX_FRAME := 8388608

  function Header(n: nat): Bytes
    requires n < 0x1_0000_0000
  {
    [(n / 0x100_0000) as byte, (n / 0x1_0000 % 0x100) as byte, (n / 0x100 % 0x100) as byte, (n % 0x100) as byte]
  }

  function HeaderValue(h: Bytes): nat
    requires |h| == 4
  {
    h[0] as int * 0x100_0000 + h[1] as int * 0x1_0000 + h[2] as int * 0x100 + h[3] as int
  }

  function Frame(payload: Bytes): Bytes
    requires |payload| <= MAX_FRAME
  {
    Header(|payload|) + payload
  }

  /** The first frame of a buffer: not all there yet, announced too long, or read off. */
  datatype Parsed = Incomplete | TooLarge | Got(payload: Bytes, rest: Bytes)

  function Parse(buf: Bytes): Parsed {
    if |buf| < 4 then Incomplete
    else
      var n := HeaderValue(buf[..4]);
      if n > MAX_FRAME then TooLarge
      else if |buf| < 4 + n then Incomplete
      else Got(buf[4..4 + n], buf[4 + n..])
  }

  lemma HeaderRoundTrip(n: nat)
    requires n < 0x1_0000_0000
    ensures HeaderValue(Header(n)) == n
    ensures Header(0x0102_0304) == [1, 2, 3, 4]
  {
    var a, b := n / 0x1_0000, n % 0x1_0000;
    assert n == a * 0x1_0000 + b;
    assert n / 0x100_0000 == a / 0x100 && n / 0x1_0000 % 0x100 == a % 0x100;
    assert n / 0x100 % 0x100 == b / 0x100 && n % 0x100 == b % 0x100;
  }

  /** However the bytes of a frame and of what follows it have arrived so far, a reader either
      waits for more or gets exactly that frame, leaving exactly what follows. */
  lemma ParseArriving(buf: Bytes, wire: Bytes, payload: Bytes, next: Bytes)
    requires |payload| <= MAX_FRAME && buf + wire == Frame(payload) + next
    ensures Parse(buf) ==
      if |buf| < |Frame(payload)| then Incomplete else Got(payload, buf[|Frame(payload)|..])
    ensures |buf| >= |Frame(payload)| ==> buf[|Frame(payload)|..] + wire == next
  {
    var all := buf + wire;
    HeaderRoundTrip(|payload|);
    if |buf| >= 4 {
      assert buf[..4] == all[..4] == Header(|payload|);
      if |buf| >= |Frame(payload)| {
        assert buf[4..4 + |payload|] == all[4..4 + |payload|] == payload;
        assert buf[4 + |payload|..] + wire == all[4 + |payload|..] == next;
      }
    }
  }

  lemma FrameRoundTrip(payload: Bytes, next: Bytes)
    requires |payload| <= MAX_FRAME
    ensures Parse(Frame(payload) + next) == Got(payload, next)
  {
    assert Frame(payload) + next + [] == Frame(payload) + next;
    ParseArriving(Frame(payload) + next, [], payload, next);
    assert (Frame(payload) + next)[|Frame(payload)|..] == next;
  }

  /** An in-memory stream: what was written and not yet read. */
  class Stream {
    var bytes: Bytes

    constructor (bytes: Bytes)
      ensures this.bytes == bytes
    {
      this.bytes := bytes;
    }

    /** Writes one frame, or nothing when the payload is too long. */
    method WriteFrame(data: Bytes) returns (ok: bool)
      modifies this
      ensures ok <==> |data| <= MAX_FRAME
      ensures bytes == if ok then old(bytes) + Frame(data) else old(bytes)
    {
      if |data| > MAX_FRAME { return false; }
      var hdr := new byte[4];
      var n := |data|;
      hdr[0], hdr[1] := (n / 0x100_0000) as byte, (n / 0x1_0000 % 0x100) as byte;
      hdr[2], hdr[3] := (n / 0x100 % 0x100) as byte, (n % 0x100) as byte;
      assert hdr[..] == Header(n);
      bytes := bytes + hdr[..];
      bytes := bytes + data;
      ok := true;
    }

    /** Reads one frame off the front. */
    method ReadFrame() returns (frame: Option<Bytes>)
      modifies this
      ensures match Parse(old(bytes))
        case Got(payload, rest) => frame == Some(payload) && bytes == rest
        case _ => frame == None
    {
      if |bytes| < 4 { return None; }
      var hdr := bytes[..4];
      bytes := bytes[4..];
      var n := HeaderValue(hdr);
      if n > MAX_FRAME || |bytes| < n { return None; }
      frame := Some(bytes[..n]);
      assert old(bytes)[4..][..n] == old(bytes)[4..4 + n] && old(bytes)[4..][n..] == old(bytes)[4 + n..];
      bytes := bytes[n..];
    }
  }
}
