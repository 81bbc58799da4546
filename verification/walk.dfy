/** The shared-visited-set traversal that eviction marks with. */
module Walk {
  import opened Content
  import opened Graph

  class Visited {
    var cids: set<Cid>

    constructor ()
      ensures cids == {}
    {
      cids := {};
    }
  }

  ghost predicate ClosedSet(bs: Blocks, s: set<Cid>) {
    forall a, b | a in s && Edge(bs, a, b) :: b in s
  }

  /** Marks everything reachable from c that is not marked yet. What it adds is
      reachable, and every newly marked block has all its targets marked, whatever the
      link graph (shared or cyclic) and however much was marked before. */
  method Visit(bs: Blocks, c: Cid, out: Visited)
    modifies out
    ensures old(out.cids) <= out.cids && c in out.cids
    ensures forall x | x in out.cids :: x in old(out.cids) || Reaches(bs, c, x)
    ensures forall a, b | a in out.cids && a !in old(out.cids) && Edge(bs, a, b) :: b in out.cids
    ensures ClosedSet(bs, old(out.cids)) ==>
      ClosedSet(bs, out.cids) && forall x :: x in out.cids <==> x in old(out.cids) || Reaches(bs, c, x)
    decreases bs.Keys - out.cids
  {
    ReachesSelf(bs, c);
    if c !in out.cids {
      out.cids := out.cids + {c};
      if c in bs {
        var links := Links(bs[c]);
        for i := 0 to |links|
          invariant old(out.cids) + {c} <= out.cids
          invariant forall x | x in out.cids :: x in old(out.cids) || Reaches(bs, c, x)
          invariant forall a, b | a in out.cids && a !in old(out.cids) && a != c && Edge(bs, a, b) :: b in out.cids
          invariant forall j | 0 <= j < i :: links[j].cid in out.cids
        {
          assert Edge(bs, c, links[i].cid);
          ghost var before := out.cids;
          Visit(bs, links[i].cid, out);
          forall x | x in out.cids ensures x in old(out.cids) || Reaches(bs, c, x) {
            if x !in before { ReachesPrepend(bs, c, links[i].cid, x); }
          }
        }
      }
    }
    if ClosedSet(bs, old(out.cids)) {
      MarkedIsReachable(bs, c, old(out.cids), out.cids);
    }
  }

  lemma MarkedIsReachable(bs: Blocks, c: Cid, before: set<Cid>, after: set<Cid>)
    requires before <= after && c in after && ClosedSet(bs, before)
    requires forall x | x in after :: x in before || Reaches(bs, c, x)
    requires forall a, b | a in after && a !in before && Edge(bs, a, b) :: b in after
    ensures ClosedSet(bs, after)
    ensures forall x :: x in after <==> x in before || Reaches(bs, c, x)
  {
    forall x | Reaches(bs, c, x) ensures x in after {
      ClosedHoldsReachable(bs, (iset y | y in after), c, x);
    }
  }
}
