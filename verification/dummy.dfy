/** The dummy CID of a commit: its hash bytes under the identity multihash. */
module Dummy {
  import opened Content

  /** A CIDv1 by its multihash: identity, or any other function by its code. */
  datatype DhtCid = Identity(digest: Bytes) | OtherHash(code: nat, digest: Bytes)

  predicate IsHex(c: char) {
    '0' <= c <= '9' || 'a' <= c <= 'f' || 'A' <= c <= 'F'
  }

  predicate AllHex(s: string) {
    forall i | 0 <= i < |s| :: IsHex(s[i])
  }

  /** A commit hash that has a dummy CID: 40 hexadecimal characters. */
  predicate ValidCommit(commit: string) {
    |commit| == 40 && AllHex(commit)
  }

  lemma ValidCommitIff(commit: string)
    ensures ValidCommit(commit) <==> |commit| == 40 && forall c | c in commit :: c in "0123456789abcdefABCDEF"
  {
    forall c: char ensures IsHex(c) <==> c in "0123456789abcdefABCDEF" { HexDigits(c); }
  }

  lemma HexDigits(c: char)
    ensures IsHex(c) <==> c in "0123456789abcdefABCDEF"
  {
  }

  type Nibble = v: int | 0 <= v < 16

  function DigitValue(c: char): Nibble
    requires IsHex(c)
  {
    if '0' <= c <= '9' then c as int - '0' as int
    else if 'a' <= c <= 'f' then c as int - 'a' as int + 10
    else c as int - 'A' as int + 10
  }

  function LowerDigit(v: Nibble): char {
    "0123456789abcdef"[v]
  }

  function LowerChar(c: char): char {
    if 'A' <= c <= 'Z' then (c as int + 32) as char else c
  }

  function Lower(s: string): string {
    if s == "" then "" else [LowerChar(s[0])] + Lower(s[1..])
  }

  function ByteOf(hi: Nibble, lo: Nibble): byte {
    (16 * hi + lo) as byte
  }

  function HighNibble(b: byte): Nibble {
    b as int / 16
  }

  function LowNibble(b: byte): Nibble {
    b as int % 16
  }

  function DecodeHex(s: string): Bytes
    requires |s| % 2 == 0 && AllHex(s)
  {
    if s == "" then [] else [ByteOf(DigitValue(s[0]), DigitValue(s[1]))] + DecodeHex(s[2..])
  }

  function EncodeHex(b: Bytes): string {
    if b == [] then "" else [LowerDigit(HighNibble(b[0])), LowerDigit(LowNibble(b[0]))] + EncodeHex(b[1..])
  }

  function FromCommit(commit: string): Option<DhtCid> {
    if ValidCommit(commit) then Some(Identity(DecodeHex(commit))) else None
  }

  function Commit(c: DhtCid): Option<string> {
    if c.Identity? && |c.digest| == 20 then Some(EncodeHex(c.digest)) else None
  }

  lemma DigitRoundTrip(c: char)
    requires IsHex(c)
    ensures LowerDigit(DigitValue(c)) == LowerChar(c)
  {
  }

  lemma LowerTwo(s: string)
    requires |s| >= 2
    ensures Lower(s) == [LowerChar(s[0]), LowerChar(s[1])] + Lower(s[2..])
  {
  }

  lemma NibblesOf(hi: Nibble, lo: Nibble)
    ensures HighNibble(ByteOf(hi, lo)) == hi && LowNibble(ByteOf(hi, lo)) == lo
  {
  }

  lemma EncodeOne(b: byte, rest: Bytes)
    ensures EncodeHex([b] + rest) == [LowerDigit(HighNibble(b)), LowerDigit(LowNibble(b))] + EncodeHex(rest)
  {
  }

  lemma {:induction false} HexRoundTrip(s: string)
    requires |s| % 2 == 0 && AllHex(s)
    ensures EncodeHex(DecodeHex(s)) == Lower(s) && 2 * |DecodeHex(s)| == |s|
    decreases |s|
  {
    if s != "" {
      DigitRoundTrip(s[0]);
      DigitRoundTrip(s[1]);
      HexRoundTrip(s[2..]);
      EncodeOne(ByteOf(DigitValue(s[0]), DigitValue(s[1])), DecodeHex(s[2..]));
      NibblesOf(DigitValue(s[0]), DigitValue(s[1]));
      LowerTwo(s);
    }
  }

  /** The commit comes back in lower case, for every commit that has a dummy CID. */
  lemma CommitRoundTrip(commit: string)
    requires ValidCommit(commit)
    ensures Commit(FromCommit(commit).value) == Some(Lower(commit))
  {
    HexRoundTrip(commit);
  }

  /** Only the dummy CID of a commit is read back: every other CID is refused. */
  lemma OnlyDummiesRead(c: DhtCid)
    ensures Commit(c).Some? ==> ValidCommit(Commit(c).value) && FromCommit(Commit(c).value) == Some(c)
    ensures Commit(c).None? ==> forall k | ValidCommit(k) :: FromCommit(k) != Some(c)
  {
    if Commit(c).Some? { BytesRoundTrip(c.digest); }
    forall k | ValidCommit(k) ensures FromCommit(k) == Some(c) ==> Commit(c).Some? { HexRoundTrip(k); }
  }

  lemma {:induction false} EncodeIsHex(b: Bytes)
    ensures |EncodeHex(b)| == 2 * |b| && AllHex(EncodeHex(b))
    decreases |b|
  {
    if b != [] {
      EncodeIsHex(b[1..]);
      NibbleRoundTrip(HighNibble(b[0]));
      NibbleRoundTrip(LowNibble(b[0]));
    }
  }

  lemma {:induction false} BytesRoundTrip(b: Bytes)
    ensures |EncodeHex(b)| == 2 * |b| && AllHex(EncodeHex(b)) && DecodeHex(EncodeHex(b)) == b
    decreases |b|
  {
    EncodeIsHex(b);
    if b != [] {
      BytesRoundTrip(b[1..]);
      EncodeIsHex(b[1..]);
      ByteRoundTrip(b[0]);
      DecodeOne(LowerDigit(HighNibble(b[0])), LowerDigit(LowNibble(b[0])), EncodeHex(b[1..]));
    }
  }

  lemma ByteRoundTrip(b: byte)
    ensures var hi, lo := LowerDigit(HighNibble(b)), LowerDigit(LowNibble(b));
      IsHex(hi) && IsHex(lo) && ByteOf(DigitValue(hi), DigitValue(lo)) == b
  {
    NibbleRoundTrip(HighNibble(b));
    NibbleRoundTrip(LowNibble(b));
  }

  lemma DecodeOne(hi: char, lo: char, rest: string)
    requires IsHex(hi) && IsHex(lo) && |rest| % 2 == 0 && AllHex(rest)
    ensures AllHex([hi, lo] + rest)
    ensures DecodeHex([hi, lo] + rest) == [ByteOf(DigitValue(hi), DigitValue(lo))] + DecodeHex(rest)
  {
    var s := [hi, lo] + rest;
    assert s[0] == hi && s[1] == lo && s[2..] == rest;
    assert forall i | 2 <= i < |s| :: s[i] == rest[i - 2];
    DecodeFirst(s);
  }

  lemma DecodeFirst(s: string)
    requires |s| >= 2 && |s| % 2 == 0 && AllHex(s)
    ensures DecodeHex(s) == [ByteOf(DigitValue(s[0]), DigitValue(s[1]))] + DecodeHex(s[2..])
  {
  }

  lemma NibbleRoundTrip(v: Nibble)
    ensures IsHex(LowerDigit(v)) && DigitValue(LowerDigit(v)) == v
  {
    if v < 10 {
      assert LowerDigit(v) == (v + '0' as int) as char;
    } else {
      assert LowerDigit(v) == (v - 10 + 'a' as int) as char;
    }
  }

  /** Two commits share a dummy CID exactly when they differ in letter case at most. */
  lemma SameDummyIff(a: string, b: string)
    requires ValidCommit(a) && ValidCommit(b)
    ensures FromCommit(a) == FromCommit(b) <==> Lower(a) == Lower(b)
  {
    CommitRoundTrip(a);
    CommitRoundTrip(b);
    if Lower(a) == Lower(b) {
      EncodeInjective(DecodeHex(a), DecodeHex(b));
    }
  }

  lemma {:induction false} EncodeInjective(a: Bytes, b: Bytes)
    requires EncodeHex(a) == EncodeHex(b)
    ensures a == b
    decreases |a|
  {
    if a == [] || b == [] {
      assert |EncodeHex(a)| == 0;
    } else {
      var x, y := EncodeHex(a), EncodeHex(b);
      assert x[2..] == EncodeHex(a[1..]) && y[2..] == EncodeHex(b[1..]);
      assert x[0] == y[0] && x[1] == y[1];
      LowerDigitInjective(HighNibble(a[0]), HighNibble(b[0]));
      LowerDigitInjective(LowNibble(a[0]), LowNibble(b[0]));
      EncodeInjective(a[1..], b[1..]);
      assert a == [a[0]] + a[1..] && b == [b[0]] + b[1..];
    }
  }

  lemma LowerDigitInjective(v: Nibble, w: Nibble)
    requires LowerDigit(v) == LowerDigit(w)
    ensures v == w
  {
  }
}
