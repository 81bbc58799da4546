/** A codec that can be written down: every value as a list of bytes from which it can be read
    back, whatever follows. It shows that what the transport asks of codecs can be met. */
module PlainCodec {
  import opened Content
  import opened Transport

  function Unary(n: nat): Bytes {
    if n == 0 then [0] else [1] + Unary(n - 1)
  }

  function OfChars(s: string): Bytes {
    if s == [] then [] else Unary(s[0] as int) + OfChars(s[1..])
  }

  function OfString(s: string): Bytes {
    Unary(|s|) + OfChars(s)
  }

  function OfNames(names: seq<string>): Bytes {
    if names == [] then [0] else [1] + OfString(names[0]) + OfNames(names[1..])
  }

  function OfBlock(b: Block): Bytes
    decreases b, 0
  {
    match b
    case Raw(data) => [0] + Unary(|data|) + data
    case Pb(kind, links) => [if kind.Directory? then 1 else 2] + OfLinks(links)
  }

  function OfLinks(links: seq<Link>): Bytes
    decreases links, 1
  {
    if links == [] then [0] else [1] + OfString(links[0].name) + OfBlock(links[0].cid.content) + OfLinks(links[1..])
  }

  // ---- What was written can be told from what follows ----

  lemma {:induction false} UnaryEnds(m: nat, n: nat, x: Bytes, y: Bytes)
    requires Unary(m) + x == Unary(n) + y
    ensures m == n && x == y
    decreases m
  {
    var a, b := Unary(m) + x, Unary(n) + y;
    assert a[0] == Unary(m)[0] && b[0] == Unary(n)[0];
    if m == 0 || n == 0 {
      assert a[1..] == x && b[1..] == y;
    } else {
      assert a[1..] == Unary(m - 1) + x && b[1..] == Unary(n - 1) + y;
      UnaryEnds(m - 1, n - 1, x, y);
    }
  }

  lemma {:induction false} CharsEnd(s: string, t: string, x: Bytes, y: Bytes)
    requires |s| == |t| && OfChars(s) + x == OfChars(t) + y
    ensures s == t && x == y
    decreases |s|
  {
    if s == [] {
      assert OfChars(s) + x == x && OfChars(t) + y == y;
    } else {
      assert OfChars(s) + x == Unary(s[0] as int) + (OfChars(s[1..]) + x);
      assert OfChars(t) + y == Unary(t[0] as int) + (OfChars(t[1..]) + y);
      UnaryEnds(s[0] as int, t[0] as int, OfChars(s[1..]) + x, OfChars(t[1..]) + y);
      CharsEnd(s[1..], t[1..], x, y);
      assert s == [s[0]] + s[1..] && t == [t[0]] + t[1..];
    }
  }

  lemma StringEnds(s: string, t: string, x: Bytes, y: Bytes)
    requires OfString(s) + x == OfString(t) + y
    ensures s == t && x == y
  {
    assert OfString(s) + x == Unary(|s|) + (OfChars(s) + x) && OfString(t) + y == Unary(|t|) + (OfChars(t) + y);
    UnaryEnds(|s|, |t|, OfChars(s) + x, OfChars(t) + y);
    CharsEnd(s, t, x, y);
  }

  lemma {:induction false} NamesEnd(names: seq<string>, others: seq<string>, x: Bytes, y: Bytes)
    requires OfNames(names) + x == OfNames(others) + y
    ensures names == others && x == y
    decreases |names|
  {
    var a, b := OfNames(names) + x, OfNames(others) + y;
    assert a[0] == OfNames(names)[0] && b[0] == OfNames(others)[0];
    if names == [] || others == [] {
      assert a[1..] == x && b[1..] == y;
    } else {
      assert a[1..] == OfString(names[0]) + (OfNames(names[1..]) + x);
      assert b[1..] == OfString(others[0]) + (OfNames(others[1..]) + y);
      StringEnds(names[0], others[0], OfNames(names[1..]) + x, OfNames(others[1..]) + y);
      NamesEnd(names[1..], others[1..], x, y);
      assert names == [names[0]] + names[1..] && others == [others[0]] + others[1..];
    }
  }

  lemma {:induction false} BlockEnds(b: Block, c: Block, x: Bytes, y: Bytes)
    requires OfBlock(b) + x == OfBlock(c) + y
    ensures b == c && x == y
    decreases b, 0
  {
    var p, q := OfBlock(b) + x, OfBlock(c) + y;
    assert p[0] == OfBlock(b)[0] && q[0] == OfBlock(c)[0];
    if b.Raw? {
      assert p[1..] == Unary(|b.data|) + (b.data + x) && q[1..] == Unary(|c.data|) + (c.data + y);
      UnaryEnds(|b.data|, |c.data|, b.data + x, c.data + y);
      assert b.data == (b.data + x)[..|b.data|] && c.data == (c.data + y)[..|c.data|];
      assert x == (b.data + x)[|b.data|..] && y == (c.data + y)[|c.data|..];
    } else {
      assert p[1..] == OfLinks(b.links) + x && q[1..] == OfLinks(c.links) + y;
      LinksEnd(b.links, c.links, x, y);
    }
  }

  lemma {:induction false} LinksEnd(ls: seq<Link>, ms: seq<Link>, x: Bytes, y: Bytes)
    requires OfLinks(ls) + x == OfLinks(ms) + y
    ensures ls == ms && x == y
    decreases ls, 1
  {
    var p, q := OfLinks(ls) + x, OfLinks(ms) + y;
    assert p[0] == OfLinks(ls)[0] && q[0] == OfLinks(ms)[0];
    if ls == [] || ms == [] {
      assert p[1..] == x && q[1..] == y;
    } else {
      FirstLinkEnds(ls, ms, x, y);
      LinksEnd(ls[1..], ms[1..], x, y);
      assert ls == [ls[0]] + ls[1..] && ms == [ms[0]] + ms[1..];
    }
  }

  lemma {:induction false} FirstLinkEnds(ls: seq<Link>, ms: seq<Link>, x: Bytes, y: Bytes)
    requires ls != [] && ms != [] && OfLinks(ls) + x == OfLinks(ms) + y
    ensures ls[0] == ms[0] && OfLinks(ls[1..]) + x == OfLinks(ms[1..]) + y
    decreases ls, 0
  {
    var b, c := ls[0].cid.content, ms[0].cid.content;
    var rest, rest' := OfLinks(ls[1..]) + x, OfLinks(ms[1..]) + y;
    LinksAfterOne(ls, x);
    LinksAfterOne(ms, y);
    StringEnds(ls[0].name, ms[0].name, OfBlock(b) + rest, OfBlock(c) + rest');
    BlockEnds(b, c, rest, rest');
  }

  lemma LinksAfterOne(ls: seq<Link>, x: Bytes)
    requires ls != []
    ensures (OfLinks(ls) + x)[1..] ==
      OfString(ls[0].name) + (OfBlock(ls[0].cid.content) + (OfLinks(ls[1..]) + x))
  {
    TailOf(1, OfString(ls[0].name), OfBlock(ls[0].cid.content), OfLinks(ls[1..]), x);
  }

  lemma TailOf(first: byte, a: Bytes, b: Bytes, c: Bytes, x: Bytes)
    ensures ([first] + a + b + c + x)[1..] == a + (b + (c + x))
  {
  }

  // ---- The codec ----

  function Chars(bs: Bytes): string {
    seq(|bs|, i requires 0 <= i < |bs| => bs[i] as int as char)
  }

  lemma CharsInjective(a: Bytes, b: Bytes)
    requires Chars(a) == Chars(b)
    ensures a == b
  {
    assert |a| == |Chars(a)| && |b| == |Chars(b)|;
    forall i | 0 <= i < |a| ensures a[i] == b[i] {
      assert Chars(a)[i] == Chars(b)[i];
    }
  }

  /** The text of a CID: one letter for each of two, for any other all there is to it. */
  function TextOf(first: Cid, second: Cid, c: Cid): string {
    if c == first then "a" else if c == second then "b" else "." + Chars(OfBlock(c.content))
  }

  lemma TextInjective(first: Cid, second: Cid, c: Cid, d: Cid)
    requires TextOf(first, second, c) == TextOf(first, second, d)
    ensures c == d
  {
    var s, t := TextOf(first, second, c), TextOf(first, second, d);
    assert s[0] == t[0] && s[1..] == t[1..];
    if s[0] == '.' {
      CharsInjective(OfBlock(c.content), OfBlock(d.content));
      assert OfBlock(c.content) + [] == OfBlock(d.content) + [];
      BlockEnds(c.content, d.content, [], []);
    }
  }

  /** The bytes of a node: one byte for one of them. */
  function NodeBytes(short: Block, b: Block): Bytes {
    if b == short then [0] else [1] + OfBlock(b)
  }

  lemma NodeBytesInjective(short: Block, b: Block, c: Block)
    requires NodeBytes(short, b) == NodeBytes(short, c)
    ensures b == c
  {
    if b != short && c != short {
      assert NodeBytes(short, b)[1..] == OfBlock(b) && NodeBytes(short, c)[1..] == OfBlock(c);
      assert OfBlock(b) + [] == OfBlock(c) + [];
      BlockEnds(b, c, [], []);
    }
  }

  ghost function ReadText(first: Cid, second: Cid, s: string): Option<Cid> {
    if c :| TextOf(first, second, c) == s then Some(c) else None
  }

  ghost function ReadNode(short: Block, bs: Bytes): Option<Block> {
    if b :| NodeBytes(short, b) == bs then Some(b) else None
  }

  ghost function ReadNames(bs: Bytes): Option<seq<string>> {
    if names :| OfNames(names) == bs then Some(names) else None
  }

  /** There is a faithful codec with a short text for two given CIDs and a short form of the node
      of the first. */
  lemma FaithfulExists(first: Cid, second: Cid) returns (codec: Codec)
    ensures Faithful(codec) && codec.text(first) == "a" && (first != second ==> codec.text(second) == "b")
    ensures codec.encodeNode(first.content) == [0]
    ensures forall names :: codec.encodeRequest(names) == OfNames(names)
  {
    codec := Codec(c => TextOf(first, second, c), s => ReadText(first, second, s),
      b => NodeBytes(first.content, b), bs => ReadNode(first.content, bs),
      names => OfNames(names), bs => ReadNames(bs));
    forall c ensures ReadText(first, second, TextOf(first, second, c)) == Some(c) {
      forall d | TextOf(first, second, d) == TextOf(first, second, c) ensures d == c {
        TextInjective(first, second, d, c);
      }
    }
    forall b ensures ReadNode(first.content, NodeBytes(first.content, b)) == Some(b) {
      forall c | NodeBytes(first.content, c) == NodeBytes(first.content, b) ensures c == b {
        NodeBytesInjective(first.content, c, b);
      }
    }
    forall names ensures ReadNames(OfNames(names)) == Some(names) {
      forall others | OfNames(others) == OfNames(names) ensures others == names {
        assert OfNames(others) + [] == OfNames(names) + [];
        NamesEnd(others, names, [], []);
      }
    }
  }

  // ---- Lengths ----

  lemma {:induction false} UnaryLength(n: nat)
    ensures |Unary(n)| == n + 1
    decreases n
  {
    if n > 0 { UnaryLength(n - 1); }
  }

  lemma LetterLength(s: string)
    requires s == "a" || s == "b"
    ensures |OfString(s)| <= 101
  {
    UnaryLength(1);
    UnaryLength(s[0] as int);
    assert s[1..] == [] && OfChars(s) == Unary(s[0] as int) + [];
  }

  /** A request for few of the two is short. */
  lemma {:induction false} NamesLength(names: seq<string>)
    requires forall i | 0 <= i < |names| :: names[i] == "a" || names[i] == "b"
    ensures |OfNames(names)| <= 1 + 102 * |names|
    decreases |names|
  {
    if names != [] {
      LetterLength(names[0]);
      NamesLength(names[1..]);
    }
  }
}
