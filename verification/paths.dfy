/** Slash-separated relative paths and their segments. */
module Paths {
  import opened DirTree

  /** The text between slashes. */
  function Split(s: string): (parts: Rel)
    ensures parts != []
  {
    if s == "" then [""]
    else
      var rest := Split(s[1..]);
      if s[0] == '/' then [""] + rest else [[s[0]] + rest[0]] + rest[1..]
  }

  function Join(parts: Rel): string {
    if parts == [] then ""
    else if |parts| == 1 then parts[0]
    else parts[0] + "/" + Join(parts[1..])
  }

  lemma {:induction false} JoinSplit(s: string)
    ensures Join(Split(s)) == s
    decreases |s|
  {
    if s != "" {
      var rest := Split(s[1..]);
      JoinSplit(s[1..]);
      assert s == [s[0]] + s[1..];
      if s[0] == '/' {
        assert ([""] + rest)[1..] == rest;
      } else if |rest| > 1 {
        assert ([[s[0]] + rest[0]] + rest[1..])[1..] == rest[1..];
      }
    }
  }

  /** Segments without slashes survive joining and splitting. */
  lemma {:induction false} SplitJoin(parts: Rel)
    requires parts != [] && forall x | x in parts :: '/' !in x
    ensures Split(Join(parts)) == parts
    decreases |parts|
  {
    if |parts| == 1 {
      SplitOne(parts[0]);
    } else {
      SplitJoin(parts[1..]);
      SplitHead(parts[0], Join(parts[1..]));
      assert parts[0] + "/" + Join(parts[1..]) == parts[0] + ("/" + Join(parts[1..]));
    }
  }

  lemma {:induction false} SplitOne(x: string)
    requires '/' !in x
    ensures Split(x) == [x]
    decreases |x|
  {
    if x != "" {
      SplitOne(x[1..]);
      assert [x[0]] + x[1..] == x;
    }
  }

  lemma {:induction false} SplitHead(x: string, y: string)
    requires '/' !in x
    ensures Split(x + ("/" + y)) == [x] + Split(y)
    decreases |x|
  {
    var s := x + ("/" + y);
    if x == "" {
      assert s == "/" + y && s[1..] == y;
    } else {
      assert s[1..] == x[1..] + ("/" + y) && s[0] == x[0];
      SplitHead(x[1..], y);
      assert [x[0]] + x[1..] == x;
      assert ([x[1..]] + Split(y))[1..] == Split(y);
    }
  }

  lemma {:induction false} SplitHasNoSlash(s: string)
    ensures forall x | x in Split(s) :: '/' !in x
    decreases |s|
  {
    if s != "" { SplitHasNoSlash(s[1..]); }
  }

  predicate SafeSegment(x: string) {
    x != "" && x != "." && x != ".."
  }

  /** A manifest path that stays inside the snapshot directory. */
  predicate SafeRelPath(p: string) {
    p != "" && p[0] != '/' && '\\' !in p && forall x | x in Split(p) :: SafeSegment(x)
  }

  /** By the segments. */
  lemma SafeBySegments(p: string)
    ensures SafeRelPath(p) <==> (forall x | x in Split(p) :: x != "" && x != "." && x != "..") && '\\' !in p
  {
    assert Split(p)[0] in Split(p);
    if forall x | x in Split(p) :: x != "" && x != "." && x != ".." {
      assert forall x | x in Split(p) :: SafeSegment(x);
    }
  }

  /** Which segments a safe path may have. */
  lemma SafePathIff(parts: Rel)
    requires parts != [] && forall x | x in parts :: '/' !in x
    ensures SafeRelPath(Join(parts)) <==>
      forall x | x in parts :: x != "" && x != "." && x != ".." && '\\' !in x
  {
    SplitJoin(parts);
    JoinHas(parts, '\\');
    SafeBySegments(Join(parts));
  }

  lemma {:induction false} JoinHas(parts: Rel, c: char)
    requires c != '/'
    ensures c in Join(parts) <==> exists x :: x in parts && c in x
    decreases |parts|
  {
    if |parts| > 1 {
      JoinHas(parts[1..], c);
      assert parts == [parts[0]] + parts[1..];
    }
  }

  lemma {:induction false} SplitAppend(a: string, b: string)
    ensures Split(a + ("/" + b)) == Split(a) + Split(b)
    decreases |a|
  {
    var s := a + ("/" + b);
    if a == "" {
      assert s == "/" + b && s[1..] == b;
    } else {
      assert s[1..] == a[1..] + ("/" + b) && s[0] == a[0];
      SplitAppend(a[1..], b);
    }
  }

  lemma {:induction false} JoinAppend(a: Rel, b: Rel)
    requires a != [] && b != []
    ensures Join(a + b) == Join(a) + ("/" + Join(b))
    decreases |a|
  {
    assert (a + b)[1..] == a[1..] + b && (a + b)[0] == a[0];
    if |a| > 1 { JoinAppend(a[1..], b); } else { assert a + b == [a[0]] + b && a[1..] + b == b; }
  }

  /** b lies below a. */
  lemma BelowIff(a: string, b: string)
    ensures Split(a) < Split(b) <==> a + "/" <= b
  {
    if Split(a) < Split(b) { BelowStarts(a, b); }
    if a + "/" <= b { StartsBelow(a, b, b[|a| + 1..]); }
  }

  lemma BelowStarts(a: string, b: string)
    requires Split(a) < Split(b)
    ensures a + "/" <= b
  {
    JoinSplit(a);
    JoinSplit(b);
    JoinBelow(Split(a), Split(b));
  }

  lemma JoinBelow(a: Rel, b: Rel)
    requires a != [] && a < b
    ensures Join(a) + "/" <= Join(b)
  {
    var rest := b[|a|..];
    assert b == a + rest;
    JoinAppend(a, rest);
    assert Join(a) + "/" + Join(rest) == Join(a) + ("/" + Join(rest));
  }

  lemma StartsBelow(a: string, b: string, rest: string)
    requires b == (a + "/") + rest
    ensures Split(a) < Split(b)
  {
    assert b == a + ("/" + rest);
    SplitAppend(a, rest);
  }
}
