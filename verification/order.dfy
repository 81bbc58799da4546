/** The byte order on names, and the one sorted list of a set of names. */
module Order {

  /** a comes before b in lexicographic order. */
  predicate Less(a: string, b: string) {
    b != "" && (a == "" || a[0] < b[0] || (a[0] == b[0] && Less(a[1..], b[1..])))
  }

  /** At the first place where they differ a has the smaller character, or has ended. */
  ghost predicate LessAt(a: string, b: string, k: nat) {
    k <= |a| && k < |b| && a[..k] == b[..k] && (k < |a| ==> a[k] < b[k])
  }

  lemma SamePrefix(a: string, b: string, k: nat)
    requires 0 < k <= |a| && k <= |b| && a[..k] == b[..k]
    ensures a[0] == b[0]
  {
    assert a[..k][0] == a[0];
  }

  lemma {:induction false} LessIff(a: string, b: string)
    ensures Less(a, b) <==> exists k: nat :: LessAt(a, b, k)
    decreases |a|
  {
    if a == "" || b == "" || a[0] != b[0] {
      if Less(a, b) { assert LessAt(a, b, 0); }
      if k: nat :| LessAt(a, b, k) && k > 0 { SamePrefix(a, b, k); }
    } else {
      LessIff(a[1..], b[1..]);
      if k: nat :| LessAt(a[1..], b[1..], k) {
        assert a[..k + 1] == [a[0]] + a[1..][..k] && b[..k + 1] == [b[0]] + b[1..][..k];
        assert LessAt(a, b, k + 1);
      }
      if k: nat :| LessAt(a, b, k) {
        assert k > 0;
        assert a[1..][..k - 1] == a[..k][1..] && b[1..][..k - 1] == b[..k][1..];
        assert LessAt(a[1..], b[1..], k - 1);
      }
    }
  }

  lemma {:induction false} LessTransitive(a: string, b: string, c: string)
    requires Less(a, b) && Less(b, c)
    ensures Less(a, c)
    decreases |a|
  {
    if a != "" && a[0] == b[0] && b[0] == c[0] { LessTransitive(a[1..], b[1..], c[1..]); }
  }

  lemma {:induction false} LessTotal(a: string, b: string)
    ensures Less(a, b) || a == b || Less(b, a)
    decreases |a|
  {
    if a != "" && b != "" && a[0] == b[0] {
      LessTotal(a[1..], b[1..]);
      assert a == [a[0]] + a[1..] && b == [b[0]] + b[1..];
    }
  }

  lemma {:induction false} LessIrreflexive(a: string)
    ensures !Less(a, a)
    decreases |a|
  {
    if a != "" { LessIrreflexive(a[1..]); }
  }

  predicate IsLeast(m: string, names: set<string>) {
    m in names && forall x | x in names && x != m :: Less(m, x)
  }

  lemma {:induction false} LeastExists(names: set<string>) returns (m: string)
    requires names != {}
    ensures IsLeast(m, names)
    decreases |names|
  {
    var x :| x in names;
    var rest := names - {x};
    assert forall z | z in names && z != x :: z in rest;
    if rest == {} {
      m := x;
    } else {
      var y := LeastExists(rest);
      LessTotal(x, y);
      if Less(x, y) {
        m := x;
        forall z | z in names && z != x ensures Less(x, z) {
          if z != y { LessTransitive(x, y, z); }
        }
      } else {
        m := y;
      }
    }
  }

  lemma LeastUnique(a: string, b: string, names: set<string>)
    requires IsLeast(a, names) && IsLeast(b, names)
    ensures a == b
  {
    if a != b {
      LessTransitive(a, b, a);
      LessIrreflexive(a);
    }
  }

  function Least(names: set<string>): (m: string)
    requires names != {}
    ensures IsLeast(m, names)
  {
    assert exists m :: IsLeast(m, names) by { var w := LeastExists(names); }
    assert forall a, b | IsLeast(a, names) && IsLeast(b, names) :: a == b by {
      forall a, b | IsLeast(a, names) && IsLeast(b, names) ensures a == b { LeastUnique(a, b, names); }
    }
    var m :| m in names && IsLeast(m, names);
    m
  }

  /** The names in ascending order. */
  function Sorted(names: set<string>): seq<string>
    decreases |names|
  {
    if names == {} then [] else var m := Least(names); [m] + Sorted(names - {m})
  }

  ghost predicate Ascending(names: seq<string>) {
    forall i, j | 0 <= i < j < |names| :: Less(names[i], names[j])
  }

  lemma {:induction false} SortedLists(names: set<string>)
    ensures forall x :: x in Sorted(names) <==> x in names
    ensures Ascending(Sorted(names))
    decreases |names|
  {
    if names != {} {
      var first, rest := Least(names), names - {Least(names)};
      SortedLists(rest);
      assert Sorted(names) == [first] + Sorted(rest);
    }
  }
}
