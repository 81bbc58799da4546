/** The smallest revision: one file, of one leaf, in the top directory. */
module OneFile {
  import opened Content
  import opened DirTree
  import opened Paths
  import Pull

  /** The file is called a. */
  function Tree(leaf: Cid): map<Rel, Cid> {
    map[["a"] := leaf]
  }

  function RootOver(leaf: Cid): Cid {
    DirCid(Tree(leaf), [])
  }

  lemma RootFacts(leaf: Cid)
    requires IsRaw(leaf)
    ensures Lookup(RootOver(leaf), ["a"]) == Some(leaf) && Split("a") == ["a"] && !IsRaw(RootOver(leaf))
    ensures forall x :: InDag(x, RootOver(leaf)) <==> x == RootOver(leaf) || x == leaf
  {
    SplitOne("a");
    RootFinds(Tree(leaf), ["a"]);
    Pull.LookupInDag(RootOver(leaf), ["a"]);
    forall x | InDag(x, RootOver(leaf)) && x != RootOver(leaf) ensures x == leaf {
      BelowRoot(Tree(leaf), ["a"], leaf, x);
    }
  }

  lemma RootFinds(leaves: map<Rel, Cid>, p: Rel)
    requires |p| == 1 && leaves.Keys == {p}
    ensures Lookup(DirCid(leaves, []), p) == Some(leaves[p])
  {
    LookupFindsIff(leaves, p);
  }

  lemma BelowRoot(leaves: map<Rel, Cid>, p: Rel, leaf: Cid, x: Cid)
    requires |p| == 1 && leaves == map[p := leaf] && IsRaw(leaf)
    requires InDag(x, DirCid(leaves, [])) && x != DirCid(leaves, [])
    ensures x == leaf
  {
    var name := EntryAbove(leaves, [], x);
    NoDirBelow(leaves, p, [] + [name]);
  }

  lemma NoDirBelow(leaves: map<Rel, Cid>, p: Rel, d: Rel)
    requires |p| == 1 && leaves.Keys == {p} && |d| == 1
    ensures d !in Dirs(leaves)
  {
    assert forall q | q in leaves :: Parent(q) == [];
  }
}
