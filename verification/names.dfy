/** Names in the Hugging Face cache: repository directories and blob files. */
module Names {
  import opened Content

  datatype RepoType = Model | Dataset | Space | OtherType(text: string)

  function DirPrefix(t: RepoType): string {
    match t
    case Dataset => "datasets--"
    case Space => "spaces--"
    case Model => "models--"
    case OtherType(_) => "models--"
  }

  /** What the types are called on disk, an unknown one like a model. */
  lemma DirNames()
    ensures RepoDirName("org/m", Model) == "models--org--m" && RepoDirName("org/m", Dataset) == "datasets--org--m"
    ensures RepoDirName("org/m", Space) == "spaces--org--m"
    ensures forall t: RepoType, id | t.OtherType? :: RepoDirName(id, t) == RepoDirName(id, Model)
  {
    assert SlashesToDashes("org/m") == "org--m";
  }

  /** Replaces every '/' by "--". */
  function SlashesToDashes(s: string): string {
    if s == "" then ""
    else (if s[0] == '/' then "--" else [s[0]]) + SlashesToDashes(s[1..])
  }

  /** Replaces "--" by '/', leftmost first and without overlap. */
  function DashesToSlashes(s: string): string {
    if |s| < 2 then s
    else if s[0] == '-' && s[1] == '-' then "/" + DashesToSlashes(s[2..])
    else [s[0]] + DashesToSlashes(s[1..])
  }

  function RepoDirName(id: string, t: RepoType): string {
    DirPrefix(t) + SlashesToDashes(id)
  }

  function TypeOfDirName(name: string): Option<RepoType> {
    if DirPrefix(Model) <= name then Some(Model)
    else if DirPrefix(Dataset) <= name then Some(Dataset)
    else if DirPrefix(Space) <= name then Some(Space)
    else None
  }

  function RepoFromDirName(name: string): Option<(string, RepoType)> {
    match TypeOfDirName(name)
    case None => None
    case Some(t) => Some((DashesToSlashes(name[|DirPrefix(t)|..]), t))
  }

  /** The repository ids whose directory name can be read back. */
  ghost predicate Decodable(id: string) {
    forall i | 0 <= i < |id| - 1 :: id[i] == '-' ==> id[i + 1] != '-' && id[i + 1] != '/'
  }

  /** Decoding undoes encoding exactly on ids holding neither "--" nor "-/". */
  lemma {:induction false} DashesRoundTrip(id: string)
    ensures DashesToSlashes(SlashesToDashes(id)) == id <==> Decodable(id)
    decreases |id|
  {
    if id != "" {
      var rest := id[1..];
      DashesRoundTrip(rest);
      assert id == [id[0]] + rest;
      DecodableSplit(id);
      var e := SlashesToDashes(rest);
      if rest != "" { assert e[0] == if rest[0] == '/' then '-' else rest[0]; }
      if id[0] == '/' {
        assert ("--" + e)[2..] == e;
      } else {
        assert ([id[0]] + e)[1..] == e;
        if id[0] == '-' && rest != "" && e[0] == '-' {
          assert DashesToSlashes("-" + e)[0] == '/';
        }
      }
    }
  }

  lemma DecodableSplit(id: string)
    requires id != ""
    ensures Decodable(id) <==>
      Decodable(id[1..]) && (|id| > 1 && id[0] == '-' ==> id[1] != '-' && id[1] != '/')
  {
  }

  /** A directory name gives back the repository it was made for, exactly for
      decodable ids of one of the three known types. */
  lemma RepoDirNameRoundTrip(id: string, t: RepoType)
    ensures RepoFromDirName(RepoDirName(id, t)) == Some((id, t)) <==> Decodable(id) && !t.OtherType?
  {
    DashesRoundTrip(id);
    var name := RepoDirName(id, t);
    var p := DirPrefix(t);
    assert name[|p|..] == SlashesToDashes(id);
    assert name[..|p|] == p && name[0] == p[0];
  }

  /** Conversely any directory name that decodes is the name of what it decodes to. */
  lemma DirNameRoundTrip(name: string)
    requires '/' !in name && RepoFromDirName(name).Some?
    ensures RepoDirName(RepoFromDirName(name).value.0, RepoFromDirName(name).value.1) == name
  {
    var p := DirPrefix(TypeOfDirName(name).value);
    SlashesBack(name[|p|..]);
    assert name == p + name[|p|..];
  }

  lemma {:induction false} SlashesBack(s: string)
    requires '/' !in s
    ensures SlashesToDashes(DashesToSlashes(s)) == s
    decreases |s|
  {
    if |s| >= 2 {
      var n := if s[0] == '-' && s[1] == '-' then 2 else 1;
      SlashesBack(s[n..]);
      var d := DashesToSlashes(s[n..]);
      assert (DashesToSlashes(s))[1..] == d;
      assert s == s[..n] + s[n..];
    } else if |s| == 1 {
      assert s[1..] == "";
    }
  }

  /** Hence two repositories never share a directory when both ids are decodable. */
  lemma RepoDirNameInjective(id: string, t: RepoType, id': string, t': RepoType)
    requires Decodable(id) && Decodable(id') && !t.OtherType? && !t'.OtherType?
    requires RepoDirName(id, t) == RepoDirName(id', t')
    ensures id == id' && t == t'
  {
    RepoDirNameRoundTrip(id, t);
    RepoDirNameRoundTrip(id', t');
  }

  /** The condition is needed: these two ids share a directory. */
  lemma UndecodableIdsCollide()
    ensures RepoDirName("org/m--x", Model) == RepoDirName("org/m/x", Model)
    ensures RepoDirName("a-/b", Model) == RepoDirName("a/-b", Model)
  {
    assert RepoDirName("org/m--x", Model) == "models--org--m--x" == RepoDirName("org/m/x", Model);
    assert RepoDirName("a-/b", Model) == "models--a---b" == RepoDirName("a/-b", Model);
  }

  /** A blob file name: one path segment, not a dot entry. */
  predicate SafeBlobName(name: string) {
    name != "" && name != "." && name != ".." && '/' !in name && '\\' !in name
  }
}
