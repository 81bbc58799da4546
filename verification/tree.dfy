/** The directory DAG of a revision: built bottom-up from the manifest, and walked top-down
    by path. A relative path is its list of segments, the empty list the root. */
module DirTree {
  import opened Content
  import opened Order

  type Rel = seq<string>

  function Parent(p: Rel): Rel {
    if p == [] then [] else p[..|p| - 1]
  }

  /** The directories that directly hold a file. */
  function Dirs(leaves: map<Rel, Cid>): set<Rel> {
    set p | p in leaves :: Parent(p)
  }

  function DeeperDirs(leaves: map<Rel, Cid>, dir: Rel): set<Rel> {
    set d | d in Dirs(leaves) && |d| > |dir|
  }

  /** The names dir lists: its own files, and the directories right below it that directly
      hold a file. Deeper directories are not looked for. */
  function EntryNames(leaves: map<Rel, Cid>, dir: Rel): set<string> {
    NamesBelow(leaves.Keys, dir) + NamesBelow(Dirs(leaves), dir)
  }

  function NamesBelow(ps: set<Rel>, dir: Rel): set<string> {
    set p | p in ps && p != [] && p[..|p| - 1] == dir :: p[|p| - 1]
  }

  lemma NamesBelowIff(ps: set<Rel>, dir: Rel, name: string)
    ensures name in NamesBelow(ps, dir) <==> dir + [name] in ps
  {
    var at := dir + [name];
    assert at[..|at| - 1] == dir && at[|at| - 1] == name;
    if name in NamesBelow(ps, dir) {
      var p :| p in ps && p != [] && p[..|p| - 1] == dir && p[|p| - 1] == name;
      assert p == at;
    }
  }

  lemma EntryNamesIff(leaves: map<Rel, Cid>, dir: Rel, name: string)
    ensures name in EntryNames(leaves, dir) <==> dir + [name] in leaves || dir + [name] in Dirs(leaves)
  {
    NamesBelowIff(leaves.Keys, dir, name);
    NamesBelowIff(Dirs(leaves), dir, name);
  }

  lemma DeeperShrinks(leaves: map<Rel, Cid>, dir: Rel, name: string)
    requires dir + [name] in Dirs(leaves)
    ensures DeeperDirs(leaves, dir + [name]) < DeeperDirs(leaves, dir)
  {
    assert dir + [name] in DeeperDirs(leaves, dir);
    assert dir + [name] !in DeeperDirs(leaves, dir + [name]);
  }

  /** A file hides a directory of the same name. */
  function Entries(leaves: map<Rel, Cid>, dir: Rel): map<string, Cid>
    decreases DeeperDirs(leaves, dir), 0
  {
    map name | name in EntryNames(leaves, dir) ::
      if dir + [name] in leaves then leaves[dir + [name]]
      else EntryNamesIff(leaves, dir, name); DeeperShrinks(leaves, dir, name); DirCid(leaves, dir + [name])
  }

  /** What sits at a path: the file if there is one, else the directory. */
  ghost function EntryAt(leaves: map<Rel, Cid>, p: Rel): Cid {
    if p in leaves then leaves[p] else DirCid(leaves, p)
  }

  function DirCid(leaves: map<Rel, Cid>, dir: Rel): Cid
    decreases DeeperDirs(leaves, dir), 1
  {
    DirNode(Entries(leaves, dir))
  }

  /** A directory node lists its entries by name. */
  function DirNode(entries: map<string, Cid>): Cid {
    SortedLists(entries.Keys);
    Hash(Pb(Directory, LinksOf(entries, Sorted(entries.Keys))))
  }

  function LinksOf(entries: map<string, Cid>, names: seq<string>): seq<Link>
    requires forall x | x in names :: x in entries
  {
    if names == [] then [] else [Link(names[0], entries[names[0]])] + LinksOf(entries, names[1..])
  }

  function FindLink(links: seq<Link>, name: string): Option<Cid> {
    if links == [] then None
    else if links[0].name == name then Some(links[0].cid)
    else FindLink(links[1..], name)
  }

  /** The first link of that name is found. */
  lemma {:induction false} FindLinkFirst(links: seq<Link>, name: string)
    ensures FindLink(links, name) == None <==> forall x | x in links :: x.name != name
    ensures forall c :: FindLink(links, name) == Some(c) <==>
      exists i :: 0 <= i < |links| && links[i] == Link(name, c) && forall j | 0 <= j < i :: links[j].name != name
    decreases |links|
  {
    if links != [] {
      var rest := links[1..];
      FindLinkFirst(rest, name);
      assert links == [links[0]] + rest;
      forall c ensures FindLink(links, name) == Some(c) <==>
          exists i :: 0 <= i < |links| && links[i] == Link(name, c) && forall j | 0 <= j < i :: links[j].name != name
      {
        if links[0].name != name {
          if FindLink(rest, name) == Some(c) {
            var i :| 0 <= i < |rest| && rest[i] == Link(name, c) && forall j | 0 <= j < i :: rest[j].name != name;
            assert links[i + 1] == Link(name, c) && forall j | 0 < j < i + 1 :: links[j] == rest[j - 1];
          }
          if i :| 0 <= i < |links| && links[i] == Link(name, c) && forall j | 0 <= j < i :: links[j].name != name {
            assert rest[i - 1] == Link(name, c) && forall j | 0 <= j < i - 1 :: rest[j] == links[j + 1];
          }
        }
      }
    }
  }

  /** The child of that name, when c is a directory. */
  function Child(c: Cid, name: string): Option<Cid> {
    if c.content.Raw? || c.content.kind != Directory then None else FindLink(c.content.links, name)
  }

  /** The node a path leads to from c, through directories only. */
  function Lookup(c: Cid, parts: Rel): Option<Cid>
    decreases |parts|
  {
    if parts == [] then Some(c)
    else
      var child := Child(c, parts[0]);
      if child.None? then None else Lookup(child.value, parts[1..])
  }

  lemma {:induction false} FindLinkBelow(links: seq<Link>, name: string)
    requires FindLink(links, name).Some?
    ensures InLinks(FindLink(links, name).value, links)
    decreases |links|
  {
    if links[0].name != name { FindLinkBelow(links[1..], name); }
  }

  lemma {:induction false} LookupSnoc(c: Cid, parts: Rel, name: string)
    ensures Lookup(c, parts + [name]) ==
      if Lookup(c, parts).None? then None else Child(Lookup(c, parts).value, name)
    decreases |parts|
  {
    if parts == [] {
      assert parts + [name] == [name] && [name][1..] == [];
    } else {
      assert (parts + [name])[1..] == parts[1..] + [name] && (parts + [name])[0] == parts[0];
      var child := Child(c, parts[0]);
      if child.Some? { LookupSnoc(child.value, parts[1..], name); }
    }
  }

  /** A path that leads nowhere stays lost. */
  lemma {:induction false} LookupLost(c: Cid, parts: Rel, i: nat)
    requires i <= |parts| && Lookup(c, parts[..i]).None?
    ensures Lookup(c, parts).None?
    decreases |parts| - i
  {
    if i < |parts| {
      assert parts[..i + 1] == parts[..i] + [parts[i]];
      LookupSnoc(c, parts[..i], parts[i]);
      LookupLost(c, parts, i + 1);
    } else {
      assert parts[..i] == parts;
    }
  }

  lemma {:induction false} FindAmong(entries: map<string, Cid>, names: seq<string>, name: string)
    requires forall x | x in names :: x in entries
    ensures FindLink(LinksOf(entries, names), name) == if name in names then Some(entries[name]) else None
    decreases |names|
  {
    if names != [] {
      assert LinksOf(entries, names)[1..] == LinksOf(entries, names[1..]);
      FindAmong(entries, names[1..], name);
    }
  }

  /** A built directory finds exactly the names it lists. */
  lemma TreeFinds(leaves: map<Rel, Cid>, dir: Rel, name: string)
    ensures FindLink(DirCid(leaves, dir).content.links, name) ==
      if dir + [name] in leaves then Some(leaves[dir + [name]])
      else if dir + [name] in Dirs(leaves) then Some(DirCid(leaves, dir + [name]))
      else None
  {
    var entries := Entries(leaves, dir);
    SortedLists(entries.Keys);
    FindAmong(entries, Sorted(entries.Keys), name);
    EntryNamesIff(leaves, dir, name);
  }

  /** No manifest path is a directory of another. */
  ghost predicate PrefixFree(leaves: map<Rel, Cid>) {
    [] !in leaves && forall p, i | p in leaves && 0 <= i < |p| :: p[..i] !in leaves
  }

  /** Each directory strictly between p[..i] and p directly holds a file. */
  ghost predicate HoldFilesAfter(leaves: map<Rel, Cid>, p: Rel, i: nat) {
    forall j | i < j < |p| :: p[..j] in Dirs(leaves)
  }

  /** The same for all directories on the way to p, the root aside. */
  ghost predicate AncestorsHoldFiles(leaves: map<Rel, Cid>, p: Rel) {
    HoldFilesAfter(leaves, p, 0)
  }

  /** Looking a manifest path up in the tree built from the manifest finds the file exactly
      when every directory on the way directly holds some file: the builder only descends
      into such directories. */
  lemma LookupFindsIff(leaves: map<Rel, Cid>, p: Rel)
    requires PrefixFree(leaves) && p in leaves
    ensures Lookup(DirCid(leaves, []), p) == Some(leaves[p]) <==> AncestorsHoldFiles(leaves, p)
  {
    assert p[..0] == [] && p[0..] == p;
    LookupFrom(leaves, p, 0);
  }

  lemma {:induction false} LookupFrom(leaves: map<Rel, Cid>, p: Rel, i: nat)
    requires PrefixFree(leaves) && p in leaves && i < |p|
    ensures Lookup(DirCid(leaves, p[..i]), p[i..]) == if HoldFilesAfter(leaves, p, i) then Some(leaves[p]) else None
    decreases |p| - i
  {
    LookupStep(leaves, p, i);
    if i + 1 < |p| && p[..i + 1] in Dirs(leaves) {
      LookupFrom(leaves, p, i + 1);
    }
  }

  lemma LookupStep(leaves: map<Rel, Cid>, p: Rel, i: nat)
    requires PrefixFree(leaves) && p in leaves && i < |p|
    ensures Lookup(DirCid(leaves, p[..i]), p[i..]) ==
      if i + 1 == |p| then Some(leaves[p])
      else if p[..i + 1] in Dirs(leaves) then Lookup(DirCid(leaves, p[..i + 1]), p[i + 1..])
      else None
  {
    TreeFinds(leaves, p[..i], p[i]);
    assert p[..i] + [p[i]] == p[..i + 1];
    assert p[i..][1..] == p[i + 1..] && p[i..][0] == p[i];
    if i + 1 == |p| { assert p[..i + 1] == p; }
  }

  /** Every node below a built directory lies in or below one of its entries. */
  lemma EntryAbove(leaves: map<Rel, Cid>, dir: Rel, x: Cid) returns (name: string)
    requires InDag(x, DirCid(leaves, dir)) && x != DirCid(leaves, dir)
    ensures dir + [name] in leaves || dir + [name] in Dirs(leaves)
    ensures InDag(x, EntryAt(leaves, dir + [name]))
  {
    var entries := Entries(leaves, dir);
    SortedLists(entries.Keys);
    name := LinkAbove(entries, Sorted(entries.Keys), x);
    EntryNamesIff(leaves, dir, name);
  }

  lemma {:induction false} LinkAbove(entries: map<string, Cid>, names: seq<string>, x: Cid) returns (name: string)
    requires (forall n | n in names :: n in entries) && InLinks(x, LinksOf(entries, names))
    ensures name in names && InDag(x, entries[name])
    decreases |names|
  {
    assert LinksOf(entries, names)[1..] == LinksOf(entries, names[1..]);
    if InDag(x, entries[names[0]]) {
      name := names[0];
    } else {
      name := LinkAbove(entries, names[1..], x);
    }
  }
}
