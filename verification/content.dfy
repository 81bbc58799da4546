/** Content addressing: blocks, the CIDs that name them, and the DAG below a CID.

    A hash is modelled as a free constructor: two CIDs are equal exactly when the
    codec and the content they commit to are equal. */
module Content {

  newtype byte = x: int | 0 <= x < 256

  type Bytes = seq<byte>

  datatype Option<+T> = None | Some(value: T)

  /** A link of a dag-pb node: an entry name (empty inside a file) and its target. */
  datatype Link = Link(name: string, cid: Cid)

  datatype Kind = Directory | File

  datatype Block = Raw(data: Bytes) | Pb(kind: Kind, links: seq<Link>)

  datatype Cid = Hash(content: Block)

  /** The SHA-256 of some bytes or of an encoded node, or whatever else a manifest carries
      where one should be. */
  datatype Digest = NoDigest | Sha256(content: Bytes) | Sha256OfNode(node: Block) | OtherText(text: string)

  /** The codec recorded in the CID itself. */
  predicate IsRaw(c: Cid) {
    c.content.Raw?
  }

  function Data(c: Cid): Bytes {
    match c.content
    case Raw(data) => data
    case Pb(_, _) => []
  }

  /** The SHA-256 of a block's bytes. */
  function BlockDigest(b: Block): Digest {
    match b
    case Raw(data) => Sha256(data)
    case Pb(_, _) => Sha256OfNode(b)
  }

  function Links(b: Block): seq<Link> {
    match b
    case Raw(_) => []
    case Pb(_, links) => links
  }

  /** x is c or lies below it. */
  ghost predicate InDag(x: Cid, c: Cid)
    decreases c, 0
  {
    x == c || (c.content.Pb? && InLinks(x, c.content.links))
  }

  ghost predicate InLinks(x: Cid, links: seq<Link>)
    decreases links, 1
  {
    links != [] && (InDag(x, links[0].cid) || InLinks(x, links[1..]))
  }

  /** The raw leaves below a CID, in order, repeated as often as they are linked. */
  ghost function Leaves(c: Cid): seq<Cid>
    decreases c, 0
  {
    match c.content
    case Raw(_) => [c]
    case Pb(_, links) => LeavesOf(links)
  }

  ghost function LeavesOf(links: seq<Link>): seq<Cid>
    decreases links, 1
  {
    if links == [] then [] else Leaves(links[0].cid) + LeavesOf(links[1..])
  }

  /** The bytes of a list of leaves, one after the other. */
  ghost function Payload(cs: seq<Cid>): Bytes {
    if cs == [] then [] else Payload(cs[..|cs| - 1]) + Data(cs[|cs| - 1])
  }

  lemma {:induction false} InLinksIff(x: Cid, links: seq<Link>)
    ensures InLinks(x, links) <==> exists i :: 0 <= i < |links| && InDag(x, links[i].cid)
    decreases |links|
  {
    if links != [] {
      InLinksIff(x, links[1..]);
      if i :| 0 <= i < |links| && InDag(x, links[i].cid) {
        if i > 0 { assert links[1..][i - 1] == links[i]; }
      }
    }
  }

  /** Being below is transitive. */
  lemma {:induction false} InDagTransitive(x: Cid, y: Cid, c: Cid)
    requires InDag(x, y) && InDag(y, c)
    ensures InDag(x, c)
    decreases c, 0
  {
    if y != c { InLinksTransitive(x, y, c.content.links); }
  }

  lemma {:induction false} InLinksTransitive(x: Cid, y: Cid, links: seq<Link>)
    requires InDag(x, y) && InLinks(y, links)
    ensures InLinks(x, links)
    decreases links, 1
  {
    if InDag(y, links[0].cid) {
      InDagTransitive(x, y, links[0].cid);
    } else {
      InLinksTransitive(x, y, links[1..]);
    }
  }

  /** Every leaf lies in the DAG and is raw. */
  lemma {:induction false} LeavesInDag(c: Cid)
    ensures forall x | x in Leaves(c) :: IsRaw(x) && InDag(x, c)
    decreases c, 0
  {
    match c.content
    case Raw(_) =>
    case Pb(_, links) => LeavesInLinks(links);
  }

  lemma {:induction false} LeavesInLinks(links: seq<Link>)
    ensures forall x | x in LeavesOf(links) :: IsRaw(x) && InLinks(x, links)
    decreases links, 1
  {
    if links != [] {
      LeavesInDag(links[0].cid);
      LeavesInLinks(links[1..]);
    }
  }

  /** Every raw node of the DAG is one of its leaves. */
  lemma {:induction false} RawInDagIsLeaf(x: Cid, c: Cid)
    requires InDag(x, c) && IsRaw(x)
    ensures x in Leaves(c)
    decreases c, 0
  {
    if c.content.Pb? { RawInLinksIsLeaf(x, c.content.links); }
  }

  lemma {:induction false} RawInLinksIsLeaf(x: Cid, links: seq<Link>)
    requires InLinks(x, links) && IsRaw(x)
    ensures x in LeavesOf(links)
    decreases links, 1
  {
    if InDag(x, links[0].cid) {
      RawInDagIsLeaf(x, links[0].cid);
    } else {
      RawInLinksIsLeaf(x, links[1..]);
    }
  }

  lemma {:induction false} LeavesOfAppend(a: seq<Link>, b: seq<Link>)
    ensures LeavesOf(a + b) == LeavesOf(a) + LeavesOf(b)
    decreases |a|
  {
    if a == [] {
      assert a + b == b;
    } else {
      assert (a + b)[1..] == a[1..] + b;
      LeavesOfAppend(a[1..], b);
    }
  }

  lemma {:induction false} PayloadAppend(a: seq<Cid>, b: seq<Cid>)
    ensures Payload(a + b) == Payload(a) + Payload(b)
    decreases |b|
  {
    if b == [] {
      assert a + b == a;
    } else {
      assert (a + b)[..|a + b| - 1] == a + b[..|b| - 1];
      PayloadAppend(a, b[..|b| - 1]);
    }
  }
}
