/** The remote side of a pull: what the block client returns, the read-through store on
    top of it, and the bounded enumeration of a file's chunks. */
module Remote {
  import opened Content
  import opened Graph
  import opened Store

  /** The most CIDs that are asked for at once. */
  const BATCH_SIZE := 64

  /** What the peer does with the k-th CID it is asked for: the stream breaks, it says the
      block is absent, or it sends some bytes. Nothing obliges them to be the right ones. */
  datatype Answer = Lost | Missing | Sent(block: Block)

  class Peer {
    const answers: (nat, Cid) -> Answer
    var asked: nat

    constructor (answers: (nat, Cid) -> Answer)
      ensures this.answers == answers
    {
      this.answers := answers;
      asked := 0;
    }

    /** One batch: a broken stream fails it, an absent block is None at its position. */
    method Fetch(cs: seq<Cid>) returns (out: Option<seq<Option<Block>>>)
      requires |cs| <= BATCH_SIZE
      modifies this
      ensures out.Some? ==> |out.value| == |cs|
      ensures out.Some? ==> forall i | 0 <= i < |cs| :: out.value[i] == Received(answers(old(asked) + i, cs[i]))
      ensures out.Some? <==> forall i | 0 <= i < |cs| :: answers(old(asked) + i, cs[i]) != Lost
    {
      var got: seq<Option<Block>> := [];
      for i := 0 to |cs|
        invariant asked == old(asked) + i && |got| == i
        invariant forall j | 0 <= j < i :: answers(old(asked) + j, cs[j]) != Lost
        invariant forall j | 0 <= j < i :: got[j] == Received(answers(old(asked) + j, cs[j]))
      {
        var a := answers(asked, cs[i]);
        if a == Lost { return None; }
        got := got + [Received(a)];
        asked := asked + 1;
      }
      out := Some(got);
    }
  }

  function Received(a: Answer): Option<Block> {
    if a.Sent? then Some(a.block) else None
  }

  /** The peer always answers c with the right block. */
  ghost predicate Supplies(answers: (nat, Cid) -> Answer, c: Cid) {
    forall k :: answers(k, c) == Sent(c.content)
  }

  /** Nothing but blocks below root was added, each under its own CID, and no other part of
      the state changed. */
  ghost predicate Grown(s: State, root: Cid, s': State) {
    && s' == s.(blocks := s'.blocks)
    && (forall c | c in s.blocks :: c in s'.blocks && s'.blocks[c] == s.blocks[c])
    && (forall c | c in s'.blocks && c !in s.blocks ::
      InDag(c, root) && !IsRaw(c) && s'.blocks[c] == c.content && c !in s.refs)
  }

  /** No block was added whose storing fails. */
  ghost predicate Unfailed(s: State, s': State, unstored: set<Cid>) {
    forall x | x in s'.blocks && x !in s.blocks :: x !in unstored
  }

  lemma GrownTwice(s: State, s1: State, s2: State, a: Cid, root: Cid)
    requires Grown(s, root, s1) && Grown(s1, a, s2) && InDag(a, root)
    ensures Grown(s, root, s2)
  {
    forall c | c in s2.blocks && c !in s1.blocks ensures InDag(c, root) { InDagTransitive(c, a, root); }
  }

  lemma GrownKeeps(s: State, root: Cid, s': State)
    requires Grown(s, root, s')
    ensures Honest(s) ==> Honest(s')
    ensures RefsLive(s) ==> RefsLive(s')
    ensures Disjoint(s) ==> Disjoint(s')
  {
  }

  /** readThrough.Get: the local store first, then the peer, whose answer must hash to the
      CID. A fetched node is kept unless storing it fails, which is only logged. */
  method Get(n: Node, peer: Peer, c: Cid, unstored: set<Cid>) returns (r: Option<Block>)
    requires Honest(n.View())
    modifies n`blocks, peer
    ensures r.Some? ==> r.value == c.content
    ensures Grown(old(n.View()), c, n.View()) && Unfailed(old(n.View()), n.View(), unstored)
    ensures forall x | x in n.blocks && x !in old(n.blocks) :: x == c
    ensures r.Some? && !IsRaw(c) && c !in unstored ==> Has(n.View(), c)
    ensures (c in old(n.blocks) || Supplies(peer.answers, c)) ==> r.Some?
    ensures Serve(old(n.View()), c).Found? ==> r.Some? && n.View() == old(n.View()) && peer.asked == old(peer.asked)
    ensures !Serve(old(n.View()), c).Found? ==> (r.Some? <==> peer.answers(old(peer.asked), c) == Sent(c.content))
  {
    if c in n.blocks {
      assert Hash(n.blocks[c]) == c;
      return Some(n.blocks[c]);
    }
    if c in n.refs && RefLive(n.disk, c, n.refs[c]) {
      var f := n.refs[c];
      return Some(Raw(n.disk[f.path][f.offset..f.offset + f.size]));
    }
    var out := peer.Fetch([c]);
    if out.None? || out.value[0].None? || Hash(out.value[0].value) != c { return None; }
    var b := out.value[0].value;
    if !IsRaw(c) && c !in unstored && c !in n.refs {
      n.blocks := n.blocks[c := b];
    }
    r := Some(b);
  }

  /** The chunk list a traversal appends to. */
  class ChunkList {
    var items: seq<Cid>

    constructor ()
      ensures items == []
    {
      items := [];
    }
  }

  /** All blocks of the DAG that are not leaves can be had. */
  ghost predicate Resolvable(blocks: Blocks, answers: (nat, Cid) -> Answer, c: Cid) {
    forall x | InDag(x, c) && !IsRaw(x) :: x in blocks || Supplies(answers, x)
  }

  /** All nodes of the DAG are stored, save those whose storing failed. */
  ghost predicate NodesStored(s: State, c: Cid, unstored: set<Cid>) {
    forall x | InDag(x, c) && !IsRaw(x) && x !in unstored :: Has(s, x)
  }

  /** Appends the leaves under c in order, never going over the budget. What has been
      appended is always a prefix of the in-order flattening. */
  method CollectLeaves(n: Node, peer: Peer, c: Cid, out: ChunkList, budget: nat, unstored: set<Cid>) returns (ok: bool)
    requires Honest(n.View()) && |out.items| <= budget
    modifies n`blocks, peer, out
    ensures Grown(old(n.View()), c, n.View()) && Honest(n.View()) && Unfailed(old(n.View()), n.View(), unstored)
    ensures |out.items| <= budget
    ensures old(out.items) <= out.items <= old(out.items) + Leaves(c)
    ensures ok ==> out.items == old(out.items) + Leaves(c) && NodesStored(n.View(), c, unstored)
    ensures Resolvable(old(n.blocks), peer.answers, c) ==> (ok <==> |old(out.items)| + |Leaves(c)| <= budget)
    decreases c, 1
  {
    ghost var s := n.View();
    if IsRaw(c) {
      if |out.items| >= budget { return false; }
      out.items := out.items + [c];
      return true;
    }
    var b := Get(n, peer, c, unstored);
    if b.None? { return false; }
    GrownKeeps(s, c, n.View());
    var links := Links(b.value);
    ghost var base := out.items;
    for i := 0 to |links|
      invariant Grown(s, c, n.View()) && Honest(n.View()) && Unfailed(s, n.View(), unstored)
      invariant |out.items| <= budget && out.items == base + LeavesOf(links[..i])
      invariant c !in unstored ==> Has(n.View(), c)
      invariant ChildrenStored(n.View(), links, i, unstored)
    {
      ghost var s1, items := n.View(), out.items;
      ok := CollectChild(n, peer, c, links, i, out, budget, unstored);
      GrownTwice(s, s1, n.View(), c, c);
      StopsInside(base, links, i, items, out.items);
      if !ok { return; }
    }
    assert links[..|links|] == links;
    ok := true;
    NodesStoredFromChildren(n.View(), c, unstored);
  }

  /** The same for the i-th link of c. */
  method CollectChild(n: Node, peer: Peer, ghost c: Cid, links: seq<Link>, i: nat, out: ChunkList, budget: nat,
      unstored: set<Cid>)
    returns (ok: bool)
    requires Honest(n.View()) && |out.items| <= budget
    requires c.content.Pb? && links == c.content.links && i < |links|
    requires ChildrenStored(n.View(), links, i, unstored)
    modifies n`blocks, peer, out
    ensures Grown(old(n.View()), c, n.View()) && Honest(n.View()) && Unfailed(old(n.View()), n.View(), unstored)
    ensures |out.items| <= budget
    ensures old(out.items) <= out.items <= old(out.items) + Leaves(links[i].cid)
    ensures ok ==> out.items == old(out.items) + Leaves(links[i].cid)
    ensures ok ==> ChildrenStored(n.View(), links, i + 1, unstored)
    ensures Resolvable(old(n.blocks), peer.answers, c) ==> (ok <==> |old(out.items)| + |Leaves(links[i].cid)| <= budget)
    decreases c, 0
  {
    ghost var s := n.View();
    var child := links[i].cid;
    assert InDag(child, c) by { InLinksIff(child, links); }
    if Resolvable(s.blocks, peer.answers, c) {
      ResolvableBelow(s.blocks, s.blocks, peer.answers, child, c);
    }
    ok := CollectLeaves(n, peer, child, out, budget, unstored);
    GrownTwice(s, s, n.View(), child, c);
  }

  ghost predicate ChildrenStored(s: State, links: seq<Link>, i: nat, unstored: set<Cid>)
    requires i <= |links|
  {
    forall j | 0 <= j < i :: NodesStored(s, links[j].cid, unstored)
  }

  lemma NodesStoredFromChildren(s: State, c: Cid, unstored: set<Cid>)
    requires c.content.Pb? && ChildrenStored(s, c.content.links, |c.content.links|, unstored)
    requires c !in unstored ==> Has(s, c)
    ensures NodesStored(s, c, unstored)
  {
    forall x | InDag(x, c) && !IsRaw(x) && x !in unstored ensures Has(s, x) {
      if x != c { InLinksIff(x, c.content.links); }
    }
  }

  /** Stopping within a child stops within the whole. */
  lemma StopsInside(base: seq<Cid>, links: seq<Link>, i: nat, before: seq<Cid>, after: seq<Cid>)
    requires i < |links| && before == base + LeavesOf(links[..i])
    requires before <= after <= before + Leaves(links[i].cid)
    ensures base <= after <= base + LeavesOf(links)
    ensures after == before + Leaves(links[i].cid) ==> after == base + LeavesOf(links[..i + 1])
    ensures |before| + |Leaves(links[i].cid)| <= |base| + |LeavesOf(links)|
  {
    LeavesSplit(links, i);
    var done, next := LeavesOf(links[..i]), Leaves(links[i].cid);
    var rest := LeavesOf(links)[|done + next|..];
    assert LeavesOf(links) == done + next + rest;
    PrefixInside(base, done, next, rest, after);
  }

  lemma PrefixInside(base: seq<Cid>, done: seq<Cid>, next: seq<Cid>, rest: seq<Cid>, after: seq<Cid>)
    requires base + done <= after <= base + done + next
    ensures base <= after <= base + (done + next + rest)
    ensures after == base + done + next ==> after == base + (done + next)
  {
    assert base + (done + next + rest) == base + done + next + rest;
  }

  lemma ResolvableBelow(blocks: Blocks, blocks': Blocks, answers: (nat, Cid) -> Answer, a: Cid, c: Cid)
    requires Resolvable(blocks, answers, c) && InDag(a, c) && blocks.Keys <= blocks'.Keys
    ensures Resolvable(blocks', answers, a)
  {
    forall x | InDag(x, a) && !IsRaw(x) ensures x in blocks' || Supplies(answers, x) { InDagTransitive(x, a, c); }
  }

  lemma LeavesSplit(links: seq<Link>, i: nat)
    requires i < |links|
    ensures LeavesOf(links[..i + 1]) == LeavesOf(links[..i]) + Leaves(links[i].cid)
    ensures LeavesOf(links[..i + 1]) <= LeavesOf(links)
    ensures |LeavesOf(links[..i + 1])| <= |LeavesOf(links)|
  {
    assert links[..i + 1] == links[..i] + [links[i]];
    LeavesOfAppend(links[..i], [links[i]]);
    assert LeavesOf([links[i]]) == Leaves(links[i].cid) + LeavesOf([]);
    assert links == links[..i + 1] + links[i + 1..];
    LeavesOfAppend(links[..i + 1], links[i + 1..]);
  }
}
