/** The in-place insertion sort of a manifest by path. */
module Sorting {
  import opened Order
  import opened Store

  ghost predicate Ordered(fs: seq<FileManifest>) {
    forall i, j | 0 <= i < j < |fs| :: !Less(fs[j].path, fs[i].path)
  }

  lemma NotLessTransitive(a: string, b: string, c: string)
    requires !Less(b, a) && !Less(c, b)
    ensures !Less(c, a)
  {
  }

  /** Everything is in order except that the file at j may belong further left. */
  ghost predicate OrderedBut(fs: seq<FileManifest>, j: nat) {
    forall i, k | 0 <= i < k < |fs| && k != j :: !Less(fs[k].path, fs[i].path)
  }

  method SortManifests(f: array<FileManifest>)
    modifies f
    ensures multiset(f[..]) == multiset(old(f[..]))
    ensures Ordered(f[..])
  {
    var i := 1;
    while i < f.Length
      invariant 1 <= i && (i <= f.Length ==> Ordered(f[..i]))
      invariant i > f.Length ==> f.Length == 0
      invariant multiset(f[..]) == multiset(old(f[..]))
    {
      var j := i;
      while j > 0 && Less(f[j].path, f[j - 1].path)
        invariant 0 <= j <= i
        invariant OrderedBut(f[..i + 1], j)
        invariant multiset(f[..]) == multiset(old(f[..]))
      {
        SwapKeepsOrder(f[..i + 1], j);
        f[j], f[j - 1] := f[j - 1], f[j];
        j := j - 1;
      }
      InPlace(f[..i + 1], j);
      i := i + 1;
    }
    assert f[..f.Length] == f[..];
  }

  lemma SwapKeepsOrder(fs: seq<FileManifest>, j: nat)
    requires 0 < j < |fs| && OrderedBut(fs, j) && Less(fs[j].path, fs[j - 1].path)
    ensures OrderedBut(fs[j := fs[j - 1]][j - 1 := fs[j]], j - 1)
  {
    LessIrreflexive(fs[j].path);
    if Less(fs[j - 1].path, fs[j].path) { LessTransitive(fs[j].path, fs[j - 1].path, fs[j].path); }
  }

  lemma InPlace(fs: seq<FileManifest>, j: nat)
    requires j < |fs| && OrderedBut(fs, j) && (j == 0 || !Less(fs[j].path, fs[j - 1].path))
    ensures Ordered(fs)
  {
    forall i | 0 <= i < j ensures !Less(fs[j].path, fs[i].path) {
      if i < j - 1 { NotLessTransitive(fs[i].path, fs[j - 1].path, fs[j].path); }
    }
  }
}
