/** Nodes, a revision and a codec with which sharing can be done. */
module ShareWitness {
  import opened Content
  import opened Dummy
  import opened Store
  import opened DirTree
  import opened EndToEnd
  import opened Names
  import opened OneFile
  import opened Paths
  import opened ProtoIO
  import opened Reconstruct
  import opened Transport
  import Ingest
  import PlainCodec

  function FileOf(data: Bytes): FileManifest {
    FileManifest("a", "b", |data|, Sha256(data), false, "", Some(HostPath("h")))
  }

  function Fresh(disk: Disk): State {
    State(map[], map[], disk, map[], map[], map[], map[])
  }

  /** A lone chunk stands for itself, more are linked by one node. */
  function Flat(cs: seq<Cid>): Cid {
    if |cs| == 1 then cs[0] else Hash(Pb(File, FlatLinks(cs)))
  }

  function FlatLinks(cs: seq<Cid>): seq<Link> {
    if cs == [] then [] else [Link("", cs[0])] + FlatLinks(cs[1..])
  }

  lemma {:induction false} FlatLeaves(cs: seq<Cid>)
    requires forall c | c in cs :: IsRaw(c)
    ensures LeavesOf(FlatLinks(cs)) == cs
    decreases |cs|
  {
    if cs != [] {
      FlatLeaves(cs[1..]);
      LeavesOfAppend([Link("", cs[0])], FlatLinks(cs[1..]));
      LoneLeaf(Link("", cs[0]));
      assert cs == [cs[0]] + cs[1..];
    }
  }

  lemma LoneLeaf(link: Link)
    requires IsRaw(link.cid)
    ensures LeavesOf([link]) == [link.cid]
  {
    assert LeavesOf([link]) == Leaves(link.cid) + LeavesOf([]);
  }

  lemma FlatKeepsLeaves()
    ensures Ingest.KeepsLeaves(Flat)
  {
    forall cs: seq<Cid> | cs != [] && forall c | c in cs :: IsRaw(c) ensures Leaves(Flat(cs)) == cs {
      FlatLeaves(cs);
    }
  }

  /** Any file of one chunk can be shared from a node that holds nothing else with one that holds
      nothing, over some codec: with success when it is short, without when it has 8388608
      bytes. */
  lemma CanBeShared(repoDir: string, commit: string, data: Bytes, size: nat, suffix: string)
    returns (sa: State, sb: State, codec: Codec)
    requires ValidCommit(commit) && |data| <= size && 0 < size
    ensures CanShare(sa, sb, repoDir, commit, [FileOf(data)], Flat, size, 1, suffix, codec)
    ensures ChunksFit(sa.disk, [FileOf(data)], size) <==> |data| < MAX_FRAME
  {
    sa, sb := Fresh(map[HostPath("h") := data]), Fresh(map[]);
    var leaf := Hash(Raw(data));
    codec := PlainCodec.FaithfulExists(RootOver(leaf), leaf);
    OneIsNotRoot(leaf);
    AllFitsOne(codec, leaf);
    OneFileTree(sa.disk, data, size);
    OneFileIsSet(sa.disk, repoDir, data, size, suffix);
    FilesAreOne(sa.disk, data, size);
  }

  lemma OneIsNotRoot(leaf: Cid)
    requires IsRaw(leaf)
    ensures RootOver(leaf) != leaf
  {
    RootFacts(leaf);
  }

  lemma FilesAreOne(disk: Disk, data: Bytes, size: nat)
    requires disk == map[HostPath("h") := data] && 0 < size
    ensures forall f | f in [FileOf(data)] :: SafeRelPath(f.path) && SafeBlobName(f.blobName)
    ensures Honest(Fresh(disk)) && RefsLive(Fresh(disk))
    ensures ChunksFit(disk, [FileOf(data)], size) <==> size < MAX_FRAME || |data| < MAX_FRAME
  {
    SplitOne("a");
    assert forall f | f in [FileOf(data)] :: f == FileOf(data);
    assert FileOf(data) in [FileOf(data)];
  }

  lemma OneFileTree(disk: Disk, data: Bytes, size: nat)
    requires |data| <= size && 0 < size && disk == map[HostPath("h") := data]
    ensures Ingest.LeafMap(disk, Flat, size, [FileOf(data)]) == Tree(Hash(Raw(data)))
    ensures RootOf(disk, Flat, size, [FileOf(data)]) == RootOver(Hash(Raw(data)))
    ensures Ingest.FileRoot(Flat, size, data) == Hash(Raw(data)) && |Ingest.Chunks(data, size)| <= 1
  {
    SplitOne("a");
    assert [FileOf(data)][..0] == [];
  }

  lemma OneFileIsSet(disk: Disk, repoDir: string, data: Bytes, size: nat, suffix: string)
    requires |data| <= size && 0 < size && disk == map[HostPath("h") := data]
    ensures EndToEnd.Set(disk, Fresh(map[]), repoDir, [FileOf(data)], Flat, size, 1, suffix)
  {
    OneFileTree(disk, data, size);
    FlatKeepsLeaves();
    PartIsNotBlob(repoDir, "b", suffix);
    OneIsPrefixFree(Tree(Hash(Raw(data))));
  }

  lemma OneIsPrefixFree(leaves: map<Rel, Cid>)
    requires leaves.Keys == {["a"]}
    ensures PrefixFree(leaves) && forall p | p in leaves :: AncestorsHoldFiles(leaves, p)
  {
  }

  lemma AllFitsOne(codec: Codec, leaf: Cid)
    requires IsRaw(leaf) && codec.text(RootOver(leaf)) == "a" && codec.text(leaf) == "b"
    requires codec.encodeNode(RootOver(leaf).content) == [0]
    requires forall names :: codec.encodeRequest(names) == PlainCodec.OfNames(names)
    ensures NodesFit(codec, RootOver(leaf)) && RequestsFit(codec, RootOver(leaf))
  {
    RootFacts(leaf);
    forall cs | BatchBelow(cs, RootOver(leaf)) ensures RequestFits(codec, cs) {
      var names := NamesOf(codec, cs);
      forall i | 0 <= i < |names| ensures names[i] == "a" || names[i] == "b" { assert cs[i] in cs; }
      PlainCodec.NamesLength(names);
    }
  }
}
