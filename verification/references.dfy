/** Nocopy references: registering the chunks of a file one by one at their running
    offset, and taking them back. */
module References {
  import opened Content
  import opened Graph
  import opened Store

  /** Filestore.Put of a reference: nothing happens when either store has the CID. */
  function PutRef(blocks: Blocks, refs: Refs, c: Cid, r: Ref): Refs {
    if c in blocks || c in refs then refs else refs[c := r]
  }

  /** The references after registering cs in order against path. */
  ghost function Registered(blocks: Blocks, refs: Refs, path: Path, cs: seq<Cid>): Refs
    decreases |cs|
  {
    if cs == [] then refs
    else
      var m := |cs| - 1;
      PutRef(blocks, Registered(blocks, refs, path, cs[..m]), cs[m], ChunkRef(path, cs, m))
  }

  ghost function ChunkRef(path: Path, cs: seq<Cid>, i: nat): Ref
    requires i < |cs|
  {
    Ref(path, |Payload(cs[..i])|, |Data(cs[i])|)
  }

  /** Chunk i occupies the bytes from the total length of the chunks before it up to where
      chunk i + 1 starts: the chunks tile the file. */
  lemma ChunksTile(cs: seq<Cid>, i: nat)
    requires i < |cs|
    ensures |Payload(cs[..i + 1])| == |Payload(cs[..i])| + |Data(cs[i])| <= |Payload(cs)|
    ensures Payload(cs)[|Payload(cs[..i])|..|Payload(cs[..i + 1])|] == Data(cs[i])
  {
    PayloadSnoc(cs, i);
    var upto, rest := cs[..i + 1], cs[i + 1..];
    assert cs == upto + rest;
    PayloadAppend(upto, rest);
    var before, chunk := Payload(cs[..i]), Data(cs[i]);
    assert (before + chunk + Payload(rest))[|before|..|before + chunk|] == chunk;
  }

  lemma PayloadSnoc(cs: seq<Cid>, i: nat)
    requires i < |cs|
    ensures Payload(cs[..i + 1]) == Payload(cs[..i]) + Data(cs[i])
  {
    assert cs[..i + 1][..i] == cs[..i];
  }

  /** Registering adds exactly the CIDs that neither store had, and changes nothing else. */
  lemma {:induction false} RegisteredDomain(blocks: Blocks, refs: Refs, path: Path, cs: seq<Cid>, c: Cid)
    ensures c in Registered(blocks, refs, path, cs) <==> c in refs || (c in cs && c !in blocks)
    ensures c in refs ==> Registered(blocks, refs, path, cs)[c] == refs[c]
    decreases |cs|
  {
    if cs != [] {
      RegisteredDomain(blocks, refs, path, cs[..|cs| - 1], c);
      assert cs == cs[..|cs| - 1] + [cs[|cs| - 1]];
    }
  }

  /** A CID it adds is filed under the position of its first occurrence. */
  lemma {:induction false} RegisteredAt(blocks: Blocks, refs: Refs, path: Path, cs: seq<Cid>, c: Cid) returns (i: nat)
    requires c in Registered(blocks, refs, path, cs) && c !in refs
    ensures i < |cs| && cs[i] == c && c !in cs[..i]
    ensures Registered(blocks, refs, path, cs)[c] == ChunkRef(path, cs, i)
    decreases |cs|
  {
    var m := |cs| - 1;
    RegisteredDomain(blocks, refs, path, cs[..m], c);
    if c in Registered(blocks, refs, path, cs[..m]) {
      i := RegisteredAt(blocks, refs, path, cs[..m], c);
      assert cs[..m][..i] == cs[..i];
    } else {
      i := m;
    }
  }

  /** Once the file holds the chunks, every reference the registration added reads back the
      bytes of its own CID, repeated chunks included. */
  lemma NewRefsLive(blocks: Blocks, refs: Refs, path: Path, cs: seq<Cid>, disk: Disk, c: Cid)
    requires forall x | x in cs :: IsRaw(x)
    requires path in disk && disk[path] == Payload(cs)
    requires c in Registered(blocks, refs, path, cs) && c !in refs
    ensures RefLive(disk, c, Registered(blocks, refs, path, cs)[c])
  {
    var i := RegisteredAt(blocks, refs, path, cs, c);
    ChunksTile(cs, i);
    PayloadSnoc(cs, i);
    assert cs[i] in cs && c.content == Raw(Data(c));
  }

  /** Registering a file that nothing referenced before keeps all references live. */
  lemma RegisteringKeepsRefsLive(s: State, path: Path, cs: seq<Cid>, s': State)
    requires RefsLive(s) && forall x | x in cs :: IsRaw(x)
    requires forall c | c in s.refs :: s.refs[c].path in s'.disk && s'.disk[s.refs[c].path] == s.disk[s.refs[c].path]
    requires path in s'.disk && s'.disk[path] == Payload(cs)
    requires s'.refs == Registered(s.blocks, s.refs, path, cs)
    ensures RefsLive(s')
  {
    forall c | c in s'.refs ensures RefLive(s'.disk, c, s'.refs[c]) {
      RegisteredDomain(s.blocks, s.refs, path, cs, c);
      if c in s.refs {
        assert RefLive(s.disk, c, s.refs[c]);
      } else {
        NewRefsLive(s.blocks, s.refs, path, cs, s'.disk, c);
      }
    }
  }

  function CidSet(cs: seq<Cid>): set<Cid> {
    set c | c in cs
  }

  /** Taking back what was registered leaves the references as they were exactly when none
      of the CIDs was referenced before. */
  lemma RollbackRestoresIff(blocks: Blocks, refs: Refs, path: Path, cs: seq<Cid>)
    ensures Registered(blocks, refs, path, cs) - CidSet(cs) == refs - CidSet(cs)
    ensures Registered(blocks, refs, path, cs) - CidSet(cs) == refs <==> forall c | c in cs :: c !in refs
  {
    forall c ensures c in Registered(blocks, refs, path, cs) - CidSet(cs) <==> c in refs - CidSet(cs) {
      RegisteredDomain(blocks, refs, path, cs, c);
    }
    forall c | c in refs - CidSet(cs) ensures Registered(blocks, refs, path, cs)[c] == refs[c] {
      RegisteredDomain(blocks, refs, path, cs, c);
    }
    if c :| c in cs && c in refs {
      assert c !in Registered(blocks, refs, path, cs) - CidSet(cs);
    }
  }
}
