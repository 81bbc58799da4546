/** trees/<commit>.json: merging manifests into the recorded metadata, and reading it back. */
module TreeJson {
  import opened Content
  import opened Store

  /** The record one file's write leaves, over whatever was recorded for its path. */
  function Merge(doc: TreeDoc, f: FileManifest): TreeFile {
    var kept := if f.path in doc then doc[f.path] else TreeFile(0, "", NoDigest, 0, "");
    TreeFile(
      f.size, f.blobName,
      if f.lfs then f.sha256 else kept.lfsSha256,
      if f.lfs then f.size else kept.lfsSize,
      if f.xetHash != "" then f.xetHash else kept.xetHash)
  }

  function Merged(doc: TreeDoc, files: seq<FileManifest>): TreeDoc
    decreases |files|
  {
    if files == [] then doc
    else
      var m := |files| - 1;
      var before := Merged(doc, files[..m]);
      before[files[m].path := Merge(before, files[m])]
  }

  /** The record of one revision replaced by the merge, all others as they were. */
  function Written(trees: map<(string, string), TreeDoc>, repoDir: string, commit: string, files: seq<FileManifest>)
    : map<(string, string), TreeDoc>
  {
    trees[(repoDir, commit) := Merged(Recorded(trees, repoDir, commit), files)]
  }

  /** Merges a manifest over the existing record of the revision, if there is one. */
  method WriteTree(n: Node, repoDir: string, commit: string, files: seq<FileManifest>)
    modifies n`trees
    ensures n.trees == Written(old(n.trees), repoDir, commit, files)
    ensures (repoDir, commit) in n.trees
    ensures forall p :: p in n.trees[(repoDir, commit)] <==>
      ((repoDir, commit) in old(n.trees) && p in old(n.trees)[(repoDir, commit)]) ||
      exists f :: f in files && f.path == p
    ensures (repoDir, commit) in old(n.trees) ==> forall p | p in old(n.trees)[(repoDir, commit)] ::
      Grew(old(n.trees)[(repoDir, commit)][p], n.trees[(repoDir, commit)][p], files, p)
    ensures forall k | k != (repoDir, commit) ::
      (k in n.trees <==> k in old(n.trees)) && (k in n.trees ==> n.trees[k] == old(n.trees)[k])
  {
    var doc := Recorded(n.trees, repoDir, commit);
    ghost var existing := doc;
    for i := 0 to |files|
      invariant doc == Merged(existing, files[..i])
    {
      var f := files[i];
      assert files[..i + 1][..i] == files[..i];
      var nt := TreeFile(f.size, f.blobName, NoDigest, 0, "");
      if f.path in doc {
        var prev := doc[f.path];
        nt := nt.(lfsSha256 := prev.lfsSha256, lfsSize := prev.lfsSize, xetHash := prev.xetHash);
      }
      if f.lfs { nt := nt.(lfsSha256 := f.sha256, lfsSize := f.size); }
      if f.xetHash != "" { nt := nt.(xetHash := f.xetHash); }
      doc := doc[f.path := nt];
    }
    assert files[..|files|] == files;
    n.trees := n.trees[(repoDir, commit) := doc];
    forall p ensures p in doc <==> p in existing || exists f :: f in files && f.path == p {
      MergedAt(existing, files, p);
      LastFileIff(files, p);
    }
    forall p | p in existing ensures Grew(existing[p], doc[p], files, p) { RecordGrows(existing, files, p); }
  }

  /** A record stays while no file of its path comes, and never loses its Xet hash. */
  ghost predicate Grew(was: TreeFile, now: TreeFile, files: seq<FileManifest>, path: string) {
    && ((forall f | f in files :: f.path != path) ==> now == was)
    && (was.xetHash != "" ==> now.xetHash != "")
    && ((forall f | f in files && f.path == path :: !f.lfs) ==>
          now.lfsSha256 == was.lfsSha256 && now.lfsSize == was.lfsSize)
  }

  lemma RecordGrows(doc: TreeDoc, files: seq<FileManifest>, path: string)
    requires path in doc
    ensures path in Merged(doc, files) && Grew(doc[path], Merged(doc, files)[path], files, path)
  {
    MergedAt(doc, files, path);
    LastFileIff(files, path);
    LastLfsIs(files, path);
    LastXetIs(files, path);
  }

  lemma {:induction false} LastFileIff(files: seq<FileManifest>, path: string)
    ensures LastFile(files, path).Some? <==> exists f :: f in files && f.path == path
    decreases |files|
  {
    if files != [] {
      LastFileIff(files[..|files| - 1], path);
      assert files == files[..|files| - 1] + [files[|files| - 1]];
    }
  }

  function Recorded(trees: map<(string, string), TreeDoc>, repoDir: string, commit: string): TreeDoc {
    if (repoDir, commit) in trees then trees[(repoDir, commit)] else map[]
  }

  /** The last file of that path, the last marked LFS, the last with a Xet hash. */
  function LastFile(files: seq<FileManifest>, path: string): Option<FileManifest> {
    if files == [] then None
    else if files[|files| - 1].path == path then Some(files[|files| - 1])
    else LastFile(files[..|files| - 1], path)
  }

  function LastLfs(files: seq<FileManifest>, path: string): Option<FileManifest> {
    if files == [] then None
    else if files[|files| - 1].path == path && files[|files| - 1].lfs then Some(files[|files| - 1])
    else LastLfs(files[..|files| - 1], path)
  }

  function LastXet(files: seq<FileManifest>, path: string): Option<FileManifest> {
    if files == [] then None
    else if files[|files| - 1].path == path && files[|files| - 1].xetHash != "" then Some(files[|files| - 1])
    else LastXet(files[..|files| - 1], path)
  }

  /** What a path's record holds after a write, field by field: size and blob from the last
      file of that path; LFS and Xet data from the last file that has them, and otherwise
      what was recorded. No path is dropped. */
  lemma {:induction false} MergedAt(doc: TreeDoc, files: seq<FileManifest>, path: string)
    ensures var r := Merged(doc, files);
      && (path in r <==> path in doc || LastFile(files, path).Some?)
      && (path in r && LastFile(files, path).None? ==> r[path] == doc[path])
      && (LastFile(files, path).Some? ==>
            var f := LastFile(files, path).value; r[path].size == f.size && r[path].blobId == f.blobName)
      && (LastLfs(files, path).Some? ==>
            LastFile(files, path).Some? &&
            var f := LastLfs(files, path).value; r[path].lfsSha256 == f.sha256 && r[path].lfsSize == f.size)
      && (path in doc && LastLfs(files, path).None? ==>
            r[path].lfsSha256 == doc[path].lfsSha256 && r[path].lfsSize == doc[path].lfsSize)
      && (path in r && path !in doc && LastLfs(files, path).None? ==>
            r[path].lfsSha256 == NoDigest && r[path].lfsSize == 0)
      && (LastXet(files, path).Some? ==>
            LastFile(files, path).Some? && r[path].xetHash == LastXet(files, path).value.xetHash)
      && (path in doc && LastXet(files, path).None? ==> r[path].xetHash == doc[path].xetHash)
      && (path in r && path !in doc && LastXet(files, path).None? ==> r[path].xetHash == "")
    decreases |files|
  {
    if files != [] { MergedAt(doc, files[..|files| - 1], path); }
  }

  /** Writing the same manifest again changes nothing. */
  lemma WriteTreeIdempotent(doc: TreeDoc, files: seq<FileManifest>)
    ensures Merged(Merged(doc, files), files) == Merged(doc, files)
  {
    var once := Merged(doc, files);
    forall p ensures p in Merged(once, files) <==> p in once {
      MergedAt(doc, files, p);
      MergedAt(once, files, p);
    }
    forall p | p in once ensures Merged(once, files)[p] == once[p] {
      MergedAt(doc, files, p);
      MergedAt(once, files, p);
    }
  }

  lemma {:induction false} LastLfsIs(files: seq<FileManifest>, path: string)
    ensures LastLfs(files, path).Some? ==>
      LastLfs(files, path).value in files && LastLfs(files, path).value.lfs && LastLfs(files, path).value.path == path
    decreases |files|
  {
    if files != [] { LastLfsIs(files[..|files| - 1], path); }
  }

  lemma {:induction false} LastXetIs(files: seq<FileManifest>, path: string)
    ensures LastXet(files, path).Some? ==>
      LastXet(files, path).value in files && LastXet(files, path).value.xetHash != "" &&
      LastXet(files, path).value.path == path
    decreases |files|
  {
    if files != [] { LastXetIs(files[..|files| - 1], path); }
  }

  /** Every LFS file carries a content hash. */
  ghost predicate LfsHashed(files: seq<FileManifest>) {
    forall f | f in files && f.lfs :: f.sha256 != NoDigest
  }

  /** A write never drops a path or clears recorded Xet data. */
  lemma WriteTreeKeepsMetadata(doc: TreeDoc, files: seq<FileManifest>, p: string)
    requires p in doc
    ensures p in Merged(doc, files)
    ensures doc[p].xetHash != "" ==> Merged(doc, files)[p].xetHash != ""
    ensures LfsHashed(files) && doc[p].lfsSha256 != NoDigest ==> Merged(doc, files)[p].lfsSha256 != NoDigest
  {
    MergedAt(doc, files, p);
    LastLfsIs(files, p);
    LastXetIs(files, p);
  }

  /** A recorded LFS hash is cleared exactly by a manifest whose last LFS file of that path comes
      without a hash. */
  lemma LfsHashClearedIff(doc: TreeDoc, files: seq<FileManifest>, p: string)
    requires p in doc && doc[p].lfsSha256 != NoDigest
    ensures p in Merged(doc, files)
    ensures Merged(doc, files)[p].lfsSha256 == NoDigest <==>
      LastLfs(files, p).Some? && LastLfs(files, p).value.sha256 == NoDigest
  {
    MergedAt(doc, files, p);
  }

  /** Such a manifest exists for every recorded hash: the file marked LFS, its hash not filled
      in. */
  lemma LfsHashCleared(doc: TreeDoc, p: string) returns (files: seq<FileManifest>)
    requires p in doc && doc[p].lfsSha256 != NoDigest
    ensures p in Merged(doc, files) && Merged(doc, files)[p].lfsSha256 == NoDigest
  {
    var f := FileManifest(p, "b", 1, NoDigest, true, "", None);
    files := [f];
    OnlyFile(files, f);
    LfsHashClearedIff(doc, files, p);
  }

  /** So does any number of writes. */
  lemma {:induction false} WritesKeepMetadata(doc: TreeDoc, writes: seq<seq<FileManifest>>, p: string)
    requires p in doc && forall w | w in writes :: LfsHashed(w)
    ensures var r := MergedAll(doc, writes);
      && p in r && (doc[p].xetHash != "" ==> r[p].xetHash != "")
      && (doc[p].lfsSha256 != NoDigest ==> r[p].lfsSha256 != NoDigest)
    decreases |writes|
  {
    if writes != [] {
      WriteTreeKeepsMetadata(doc, writes[0], p);
      WritesKeepMetadata(Merged(doc, writes[0]), writes[1..], p);
    }
  }

  ghost function MergedAll(doc: TreeDoc, writes: seq<seq<FileManifest>>): TreeDoc
    decreases |writes|
  {
    if writes == [] then doc else MergedAll(Merged(doc, writes[0]), writes[1..])
  }

  /** What a tree adds to a manifest entry that was rebuilt from files alone. */
  function Enriched(doc: TreeDoc, f: FileManifest): FileManifest {
    if f.path !in doc then f
    else
      var tf := doc[f.path];
      f.(lfs := f.lfs || tf.lfsSha256 != NoDigest || tf.xetHash != "",
         xetHash := if tf.xetHash != "" then tf.xetHash else f.xetHash)
  }

  /** Recovers LFS and Xet metadata into the manifest, in place. */
  method EnrichFromTree(doc: TreeDoc, files: array<FileManifest>)
    modifies files
    ensures forall i | 0 <= i < files.Length :: files[i] == Enriched(doc, old(files[i]))
  {
    for i := 0 to files.Length
      invariant forall j | 0 <= j < i :: files[j] == Enriched(doc, old(files[j]))
      invariant forall j | i <= j < files.Length :: files[j] == old(files[j])
    {
      var f := files[i];
      if f.path in doc {
        var tf := doc[f.path];
        if tf.lfsSha256 != NoDigest || tf.xetHash != "" { files[i] := files[i].(lfs := true); }
        if tf.xetHash != "" { files[i] := files[i].(xetHash := tf.xetHash); }
      }
    }
  }

  /** What walking the symlink tree cannot see. */
  function Stripped(f: FileManifest): FileManifest {
    f.(lfs := false, xetHash := "")
  }

  /** A stripped manifest gets its LFS and Xet data back from the tree its own write made,
      exactly when a Xet hash comes only with LFS, and an LFS file has a content hash or a
      Xet hash to be recognised by. */
  lemma EnrichRestoresIff(files: seq<FileManifest>, f: FileManifest)
    requires f in files && forall g | g in files && g.path == f.path :: g == f
    ensures Enriched(Merged(map[], files), Stripped(f)) == f <==>
      ((f.xetHash != "" ==> f.lfs) && (f.lfs ==> f.sha256 != NoDigest || f.xetHash != ""))
  {
    var doc := Merged(map[], files);
    MergedAt(map[], files, f.path);
    OnlyFile(files, f);
  }

  lemma {:induction false} OnlyFile(files: seq<FileManifest>, f: FileManifest)
    requires forall g | g in files && g.path == f.path :: g == f
    ensures f in files ==> LastFile(files, f.path) == Some(f)
    ensures f in files ==> LastLfs(files, f.path) == if f.lfs then Some(f) else None
    ensures f in files ==> LastXet(files, f.path) == if f.xetHash != "" then Some(f) else None
    ensures f !in files ==> LastLfs(files, f.path) == None && LastXet(files, f.path) == None
    decreases |files|
  {
    if files != [] {
      OnlyFile(files[..|files| - 1], f);
      assert files == files[..|files| - 1] + [files[|files| - 1]];
    }
  }
}
