/** Reachability through the blocks that are present, on any link graph. */
module Graph {
  import opened Content

  type Blocks = map<Cid, Block>

  predicate Edge(bs: Blocks, a: Cid, b: Cid) {
    a in bs && exists i :: 0 <= i < |Links(bs[a])| && Links(bs[a])[i].cid == b
  }

  ghost predicate IsPath(bs: Blocks, p: seq<Cid>) {
    p != [] && forall i | 0 <= i < |p| - 1 :: Edge(bs, p[i], p[i + 1])
  }

  /** There is a path of links, through present blocks, from a to b. */
  ghost predicate Reaches(bs: Blocks, a: Cid, b: Cid) {
    exists p :: IsPath(bs, p) && p[0] == a && p[|p| - 1] == b
  }

  /** s holds every target of every block in it. */
  ghost predicate ClosedUnder(bs: Blocks, s: iset<Cid>) {
    forall a, b | a in s && Edge(bs, a, b) :: b in s
  }

  lemma ReachesSelf(bs: Blocks, a: Cid)
    ensures Reaches(bs, a, a)
  {
    assert IsPath(bs, [a]);
  }

  lemma ReachesStep(bs: Blocks, a: Cid, b: Cid, c: Cid)
    requires Reaches(bs, a, b) && Edge(bs, b, c)
    ensures Reaches(bs, a, c)
  {
    var p :| IsPath(bs, p) && p[0] == a && p[|p| - 1] == b;
    assert IsPath(bs, p + [c]);
  }

  lemma ReachesPrepend(bs: Blocks, a: Cid, b: Cid, c: Cid)
    requires Edge(bs, a, b) && Reaches(bs, b, c)
    ensures Reaches(bs, a, c)
  {
    var p :| IsPath(bs, p) && p[0] == b && p[|p| - 1] == c;
    assert IsPath(bs, [a] + p);
  }

  /** Nothing leaves a set that is closed under links. */
  lemma ClosedHoldsReachable(bs: Blocks, s: iset<Cid>, a: Cid, b: Cid)
    requires ClosedUnder(bs, s) && a in s && Reaches(bs, a, b)
    ensures b in s
  {
    var p :| IsPath(bs, p) && p[0] == a && p[|p| - 1] == b;
    PathStaysInside(bs, s, p);
  }

  lemma {:induction false} PathStaysInside(bs: Blocks, s: iset<Cid>, p: seq<Cid>)
    requires ClosedUnder(bs, s) && IsPath(bs, p) && p[0] in s
    ensures p[|p| - 1] in s
    decreases |p|
  {
    if |p| > 1 {
      assert Edge(bs, p[0], p[1]);
      var q := p[1..];
      forall i | 0 <= i < |q| - 1 ensures Edge(bs, q[i], q[i + 1]) {
        assert Edge(bs, p[i + 1], p[i + 2]);
      }
      PathStaysInside(bs, s, q);
    }
  }

  /** With more blocks at least as much is reached. */
  lemma ReachesGrows(bs: Blocks, bs': Blocks, a: Cid, x: Cid)
    requires (forall c | c in bs :: c in bs' && bs'[c] == bs[c]) && Reaches(bs, a, x)
    ensures Reaches(bs', a, x)
  {
    var p :| IsPath(bs, p) && p[0] == a && p[|p| - 1] == x;
    assert IsPath(bs', p);
  }

  /** x links to the same CIDs in both. */
  ghost predicate SameLinks(bs: Blocks, bs': Blocks, x: Cid) {
    forall z :: Edge(bs, x, z) <==> Edge(bs', x, z)
  }

  /** Reachability from a depends only on the links of what a reaches. */
  lemma ReachesSameEdges(bs: Blocks, bs': Blocks, a: Cid, x: Cid)
    requires forall y | Reaches(bs, a, y) :: SameLinks(bs, bs', y)
    ensures Reaches(bs, a, x) <==> Reaches(bs', a, x)
  {
    var s := iset y | Reaches(bs, a, y);
    var s' := iset y | Reaches(bs', a, y);
    ReachesSelf(bs, a);
    ReachesSelf(bs', a);
    if Reaches(bs, a, x) {
      var both := iset y | y in s && y in s';
      forall y, z | y in both && Edge(bs, y, z) ensures z in both {
        ReachesStep(bs, a, y, z);
        ReachesStep(bs', a, y, z);
      }
      ClosedHoldsReachable(bs, both, a, x);
    }
    if Reaches(bs', a, x) {
      forall y, z | y in s && Edge(bs', y, z) ensures z in s {
        ReachesStep(bs, a, y, z);
      }
      ClosedHoldsReachable(bs', s, a, x);
    }
  }

  /** So a store that agrees on the blocks a reaches has the same reachable set. */
  lemma ReachesStable(bs: Blocks, bs': Blocks, a: Cid, x: Cid)
    requires forall y | Reaches(bs, a, y) :: (y in bs <==> y in bs') && (y in bs ==> bs[y] == bs'[y])
    ensures Reaches(bs, a, x) <==> Reaches(bs', a, x)
  {
    ReachesSameEdges(bs, bs', a, x);
  }
}
