/**
 The byte stream behind a source tree digest: for each file in the order of its name a length-prefixed
 name, the permission bits, and a length-prefixed body. It is produced twice, from a source archive and
 from a directory. The hash of the stream is left uninterpreted: the facts are about the bytes fed to it.
 */
module TreeDigests {
  import opened Results
  import opened Wrappers
  import opened Bytes
  import opened Orderings
  import opened Utf8s

  datatype File = File(mode: nat, body: seq<byte>)

  datatype Fault = UnsafePath | TooLong | UnsupportedSymlink

  /** `mode & 0o7777` */
  const PERMISSIONS := 4096

  /** `name.split("/")` */
  function Components(name: string): (r: seq<string>)
    ensures r != []
  {
    if name == [] then [""]
    else if name[0] == '/' then [""] + Components(name[1..])
    else
      var rest := Components(name[1..]);
      [[name[0]] + rest[0]] + rest[1..]
  }

  // ---- names as pathlib takes them apart ----------------------------------------------------------

  /** The slashes that make a path absolute: two are kept as two, any other number as one. */
  function Root(name: string): (r: string)
    ensures r <= name && |r| <= 2
  {
    if name == [] || name[0] != '/' then ""
    else if |name| >= 2 && name[1] == '/' && !(|name| >= 3 && name[2] == '/') then name[..2]
    else name[..1]
  }

  /** Empty and current components are dropped. */
  function Kept(components: seq<string>): seq<string> {
    if components == [] then []
    else (if components[0] in {"", "."} then [] else [components[0]]) + Kept(components[1..])
  }

  function Tail(name: string): seq<string> { Kept(Components(name[|Root(name)|..])) }

  /** `PurePosixPath(name).parts` */
  function Parts(name: string): seq<string> { (if Root(name) == "" then [] else [Root(name)]) + Tail(name) }

  /** `"/".join(parts)` */
  function Join(parts: seq<string>): string {
    if parts == [] then "" else if |parts| == 1 then parts[0] else parts[0] + "/" + Join(parts[1..])
  }

  /** `as_posix`: a path without anything is the current directory. */
  function AsPosix(name: string): string {
    var text := Root(name) + Join(Tail(name));
    if text == "" then "." else text
  }

  predicate IsAbsolute(name: string) { Root(name) != "" }

  /** `_safe_archive_name` */
  predicate SafeArchiveName(name: string) {
    && name != "" && AsPosix(name) == name && !IsAbsolute(name)
    && ".." !in Parts(name) && "." !in Parts(name) && '\\' !in name
  }

  lemma {:induction false} JoinsComponents(name: string)
    ensures Join(Components(name)) == name
    ensures forall c :: c in Components(name) ==> '/' !in c
  {
    if name != [] {
      JoinsComponents(name[1..]);
      var rest := Components(name[1..]);
      assert name == [name[0]] + name[1..];
      if name[0] == '/' {
        assert ([""] + rest)[1..] == rest;
        assert "" + "/" + name[1..] == name;
      } else {
        var first := [name[0]] + rest[0];
        assert Components(name) == [first] + rest[1..];
        assert rest == [rest[0]] + rest[1..];
        assert ([first] + rest[1..])[1..] == rest[1..];
        if |rest| > 1 {
          assert first + "/" + Join(rest[1..]) == [name[0]] + (rest[0] + "/" + Join(rest[1..]));
        }
      }
    }
  }

  lemma {:induction false} ComponentsOfOne(c: string)
    requires '/' !in c
    ensures Components(c) == [c]
  {
    if c != [] {
      ComponentsOfOne(c[1..]);
      assert c == [c[0]] + c[1..];
    }
  }

  lemma {:induction false} ComponentsOfConcat(c: string, rest: string)
    requires '/' !in c
    ensures Components(c + "/" + rest) == [c] + Components(rest)
  {
    var name := c + "/" + rest;
    if c == [] {
      assert name[1..] == rest;
    } else {
      ComponentsOfConcat(c[1..], rest);
      assert name[1..] == c[1..] + "/" + rest;
      assert c == [c[0]] + c[1..];
      assert ([c[1..]] + Components(rest))[1..] == Components(rest);
    }
  }

  lemma {:induction false} ComponentsOfJoin(parts: seq<string>)
    requires parts != [] && forall c :: c in parts ==> '/' !in c
    ensures Components(Join(parts)) == parts
  {
    if |parts| == 1 {
      ComponentsOfOne(parts[0]);
    } else {
      ComponentsOfJoin(parts[1..]);
      ComponentsOfConcat(parts[0], Join(parts[1..]));
    }
  }

  lemma {:induction false} KeptAre(components: seq<string>)
    ensures forall c :: c in Kept(components) <==> c in components && c !in {"", "."}
    ensures (forall c :: c in components ==> c !in {"", "."}) ==> Kept(components) == components
  {
    if components != [] {
      assert components == [components[0]] + components[1..];
      KeptAre(components[1..]);
      if forall c :: c in components ==> c !in {"", "."} {
        assert components[0] in components && forall c :: c in components[1..] ==> c in components;
      }
    }
  }

  /** No backslash, and no empty, current or parent component. */
  predicate Canonical(name: string) { '\\' !in name && forall c :: c in Components(name) ==> c !in {"", ".", ".."} }

  /** Besides the canonical names exactly the name "." is let through: it has no parts for pathlib. */
  lemma OnlyDotSlipsThrough(name: string)
    ensures SafeArchiveName(name) <==> name == "." || Canonical(name)
    ensures !Canonical(".")
  {
    ComponentsOfOne(".");
    assert "." in Components(".");
    if name == "." {
      DotIsSafe();
    } else if Root(name) == "" {
      RelativeNames(name);
    } else {
      assert Components(name)[0] == "" && "" in Components(name);
    }
    hide Components, Parts, AsPosix;
  }

  lemma DotIsSafe()
    ensures SafeArchiveName(".")
  {
    ComponentsOfOne(".");
    assert "."[0..] == ".";
    assert Root(".") == "";
    assert Kept(["."]) == [] + Kept(["."][1..]) == [];
    assert Tail(".") == [] && Parts(".") == [];
  }

  lemma RelativeNames(name: string)
    requires Root(name) == "" && name != "."
    ensures SafeArchiveName(name) <==> Canonical(name)
  {
    hide Components, Kept, Join;
    var cs := Components(name);
    assert name[0..] == name;
    JoinsComponents(name);
    KeptAre(cs);
    assert Tail(name) == Kept(cs) && Parts(name) == Tail(name) by {
      assert [] + Kept(cs) == Kept(cs);
    }
    assert "" + Join(Tail(name)) == Join(Tail(name));
    if SafeArchiveName(name) {
      assert Tail(name) != [] by {
        if Tail(name) == [] {
          JoinOfNothing();
        }
      }
      assert Join(Tail(name)) == name;
      ComponentsOfJoin(Tail(name));
    }
    if Canonical(name) {
      EmptyName();
      assert name == "" ==> "" in cs;
      assert Tail(name) == cs;
      assert AsPosix(name) == name;
      assert Parts(name) == cs;
    }
  }

  lemma JoinOfNothing()
    ensures Join([]) == ""
  {
  }

  lemma EmptyName()
    ensures Components("") == [""]
  {
  }

  predicate Fits(name: string, f: File) { |Encode(name)| < Pow256(8) && |f.body| < Pow256(8) }

  function Record(name: string, f: File): seq<byte> {
    BigEndian(|Encode(name)|, 8) + Encode(name) + BigEndian(f.mode % PERMISSIONS, 4) + BigEndian(|f.body|, 8) + f.body
  }

  function Stream(files: map<string, File>, names: seq<string>): seq<byte>
    requires forall n :: n in names ==> n in files
  {
    if names == [] then [] else Record(names[0], files[names[0]]) + Stream(files, names[1..])
  }

  /** The files can be written: safe names where they are checked, and sizes of at most eight bytes. */
  predicate Writable(files: map<string, File>, checked: bool) {
    forall n :: n in files ==>
      && (checked ==> SafeArchiveName(n))
      && |Encode(n)| < 0x1_0000_0000_0000_0000 && |files[n].body| < 0x1_0000_0000_0000_0000
  }

  lemma FitsExactly(name: string, f: File)
    ensures Fits(name, f) <==> |Encode(name)| < 0x1_0000_0000_0000_0000 && |f.body| < 0x1_0000_0000_0000_0000
  {
    WordSizes();
  }

  lemma WritableFit(files: map<string, File>, checked: bool)
    ensures Writable(files, checked) <==> forall n :: n in files ==>
      (checked ==> SafeArchiveName(n)) && Fits(n, files[n])
  {
    hide Fits, SafeArchiveName, Encode;
    forall n | n in files
      ensures Fits(n, files[n]) <==> |Encode(n)| < 0x1_0000_0000_0000_0000 && |files[n].body| < 0x1_0000_0000_0000_0000
    {
      FitsExactly(n, files[n]);
    }
  }

  /** Why files are refused: one of them has an unsafe name, or is too long. */
  predicate Refused(files: map<string, File>, checked: bool, fault: Fault) {
    exists n :: n in files && match fault
      case UnsafePath => checked && !SafeArchiveName(n)
      case TooLong => (checked ==> SafeArchiveName(n)) && !Fits(n, files[n])
      case UnsupportedSymlink => false
  }

  ghost predicate Lists(names: seq<string>, files: map<string, File>) { forall n :: n in names <==> n in files }

  /** `_tree_digest`: what is fed to the hash, for a dictionary listing its keys in any order. */
  method ArchiveStream(files: map<string, File>, names: seq<string>) returns (r: Result<seq<byte>, Fault>)
    requires Lists(names, files)
    ensures r.Success? <==> Writable(files, true)
    ensures r.Failure? ==> Refused(files, true, r.error)
    ensures r.Success? ==> r.value == Stream(files, SortedNames(names, files))
  {
    r := Feed(files, SortedNames(names, files), true);
  }

  function SortedNames(names: seq<string>, files: map<string, File>): (s: seq<string>)
    requires Lists(names, files)
    ensures Sorted(s) && Lists(s, files)
  {
    SortSorts(names);
    Sort(names)
  }

  method Feed(files: map<string, File>, sorted: seq<string>, checked: bool) returns (r: Result<seq<byte>, Fault>)
    requires Lists(sorted, files)
    ensures r.Success? <==> Writable(files, checked)
    ensures r.Failure? ==> Refused(files, checked, r.error)
    ensures r.Success? ==> r.value == Stream(files, sorted)
  {
    WritableFit(files, checked);
    hide Record, SafeArchiveName, Fits, Writable;
    var fed := [];
    for i := 0 to |sorted|
      invariant fed + Stream(files, sorted[i..]) == Stream(files, sorted)
      invariant forall k :: 0 <= k < i ==> (checked ==> SafeArchiveName(sorted[k])) && Fits(sorted[k], files[sorted[k]])
    {
      var name := sorted[i];
      if checked && !SafeArchiveName(name) {
        return Failure(UnsafePath);
      }
      if !Fits(name, files[name]) {
        return Failure(TooLong);
      }
      assert sorted[i..][1..] == sorted[i + 1..];
      fed := fed + Record(name, files[name]);
    }
    assert sorted[|sorted|..] == [];
    return Success(fed);
  }

  // ---- the directory twin ---------------------------------------------------------------------------

  datatype Node = Directory | Symlink | Regular(file: File)

  function RegularFiles(tree: map<string, Node>): map<string, File> {
    map n | n in tree && tree[n].Regular? :: tree[n].file
  }

  /** `tree_digest` over a directory, walked in any order. Paths are relative and distinct. */
  method DirectoryStream(tree: map<string, Node>, walk: seq<string>) returns (r: Result<seq<byte>, Fault>)
    requires forall n :: n in walk <==> n in tree
    ensures r.Success? <==> (forall n :: n in tree ==> !tree[n].Symlink?) && Writable(RegularFiles(tree), false)
    ensures r.Failure? ==>
      if r.error == UnsupportedSymlink then exists n :: n in tree && tree[n].Symlink?
      else Refused(RegularFiles(tree), false, r.error)
    ensures r.Success? ==>
              exists s :: Sorted(s) && Lists(s, RegularFiles(tree)) && r.value == Stream(RegularFiles(tree), s)
  {
    hide Record, Fits, Stream;
    var names := [];
    for i := 0 to |walk|
      invariant forall k :: 0 <= k < i ==> !tree[walk[k]].Symlink?
      invariant forall n :: n in names <==> n in walk[..i] && tree[n].Regular?
    {
      assert walk[..i + 1] == walk[..i] + [walk[i]];
      if tree[walk[i]].Symlink? {
        return Failure(UnsupportedSymlink);
      }
      if tree[walk[i]].Regular? {
        names := names + [walk[i]];
      }
    }
    assert walk[..|walk|] == walk;
    r := Feed(RegularFiles(tree), SortedNames(names, RegularFiles(tree)), false);
  }

  // ---- decoding the stream ----------------------------------------------------------------------------

  datatype Item = Item(name: seq<byte>, permissions: nat, body: seq<byte>)

  /** A reader that knows nothing but the format. */
  function ReadItems(s: seq<byte>): Option<seq<Item>>
    decreases |s|
  {
    if s == [] then Some([])
    else if |s| < 8 then None
    else
      var n := FromBigEndian(s[..8]);
      if |s| < 8 + n + 12 then None
      else
        var m := FromBigEndian(s[8 + n + 4..8 + n + 12]);
        if |s| < 8 + n + 12 + m then None
        else
          var item := Item(s[8..8 + n], FromBigEndian(s[8 + n..8 + n + 4]), s[8 + n + 12..8 + n + 12 + m]);
          match ReadItems(s[8 + n + 12 + m..])
          case None => None
          case Some(more) => Some([item] + more)
  }

  function ItemOf(name: string, f: File): Item { Item(Encode(name), f.mode % 4096, f.body) }

  function Items(files: map<string, File>, names: seq<string>): (r: seq<Item>)
    requires forall n :: n in names ==> n in files
    ensures |r| == |names| && forall i :: 0 <= i < |r| ==> r[i] == ItemOf(names[i], files[names[i]])
  {
    seq(|names|, i requires 0 <= i < |names| => ItemOf(names[i], files[names[i]]))
  }

  lemma RecordParts(name: string, f: File, rest: seq<byte>)
    requires Fits(name, f)
    ensures var s, n, m := Record(name, f) + rest, |Encode(name)|, |f.body|;
            && |s| >= 20 + n + m && FromBigEndian(s[..8]) == n && s[8..8 + n] == Encode(name)
            && FromBigEndian(s[8 + n..12 + n]) == f.mode % PERMISSIONS && FromBigEndian(s[12 + n..20 + n]) == m
            && s[20 + n..20 + n + m] == f.body && s[20 + n + m..] == rest
  {
    hide BigEndian, Encode, FromBigEndian;
    var s, n, m := Record(name, f) + rest, |Encode(name)|, |f.body|;
    WordSizes();
    BigEndianRoundTrip(n, 8);
    BigEndianRoundTrip(f.mode % PERMISSIONS, 4);
    BigEndianRoundTrip(m, 8);
    assert s[..8] == BigEndian(n, 8);
    assert s[8 + n..12 + n] == BigEndian(f.mode % PERMISSIONS, 4);
    assert s[12 + n..20 + n] == BigEndian(m, 8);
  }

  lemma RecordReads(name: string, f: File, rest: seq<byte>)
    requires Fits(name, f)
    ensures ReadItems(Record(name, f) + rest) ==
              match ReadItems(rest) case None => None case Some(more) => Some([ItemOf(name, f)] + more)
  {
    RecordParts(name, f, rest);
    hide Record, Encode, FromBigEndian, Fits;
  }

  /** Uniquely decodable: the stream gives back every name, permission and body, in order. */
  lemma {:induction false} StreamReads(files: map<string, File>, names: seq<string>)
    requires forall n :: n in names ==> n in files && Fits(n, files[n])
    ensures ReadItems(Stream(files, names)) == Some(Items(files, names))
  {
    hide Record, Fits, Encode;
    if names == [] {
      assert Items(files, names) == [];
    } else {
      hide ReadItems;
      StreamReads(files, names[1..]);
      RecordReads(names[0], files[names[0]], Stream(files, names[1..]));
      assert Items(files, names) == [ItemOf(names[0], files[names[0]])] + Items(files, names[1..]);
    }
  }

  /** The same names, permission bits and bodies. */
  predicate SameTree(a: map<string, File>, b: map<string, File>) {
    a.Keys == b.Keys
    && forall n :: n in a ==> a[n].mode % 4096 == b[n].mode % 4096 && a[n].body == b[n].body
  }

  lemma {:induction false} SameTreeSameStream(a: map<string, File>, b: map<string, File>, names: seq<string>)
    requires SameTree(a, b) && forall n :: n in names ==> n in a
    ensures Stream(a, names) == Stream(b, names)
  {
    if names != [] {
      SameTreeSameStream(a, b, names[1..]);
    }
  }

  /** Equal bytes exactly for equal trees, whichever order the files were listed in. */
  lemma StreamsDetermineTrees(a: map<string, File>, s: seq<string>, b: map<string, File>, t: seq<string>)
    requires Sorted(s) && Lists(s, a) && Writable(a, false)
    requires Sorted(t) && Lists(t, b) && Writable(b, false)
    ensures Stream(a, s) == Stream(b, t) <==> SameTree(a, b)
  {
    WritableFit(a, false);
    WritableFit(b, false);
    hide Encode, Stream, Record, Fits, Sorted;
    if SameTree(a, b) {
      SortedUnique(s, t);
      SameTreeSameStream(a, b, s);
    }
    if Stream(a, s) == Stream(b, t) {
      StreamReads(a, s);
      StreamReads(b, t);
      forall i | 0 <= i < |s|
        ensures s[i] == t[i]
        ensures a[s[i]].mode % PERMISSIONS == b[s[i]].mode % PERMISSIONS && a[s[i]].body == b[s[i]].body
      {
        assert Items(a, s)[i] == Items(b, t)[i];
        EncodeInjective(s[i], t[i]);
      }
      assert s == t;
      forall n | n in a ensures a[n].mode % PERMISSIONS == b[n].mode % PERMISSIONS && a[n].body == b[n].body {
        assert n in s;
      }
    }
  }

  // ---- the two implementations agree -------------------------------------------------------------------

  /** `member.mode & 0o111` */
  predicate Executable(mode: nat) { mode % 2 == 1 || mode / 8 % 2 == 1 || mode / 64 % 2 == 1 }

  const MODE_0755 := 493

  const MODE_0644 := 420

  /** The mode `_tree_files` keeps of an archive member: only the executable bit. */
  function KeptMode(header: nat): nat { if Executable(header) then MODE_0755 else MODE_0644 }

  function FromArchive(members: map<string, File>): map<string, File> {
    map n | n in members :: File(KeptMode(members[n].mode), members[n].body)
  }

  predicate IsSet(mode: nat, bit: nat)
    requires bit > 0
  {
    mode / bit % 2 == 1
  }

  /** The permissions rwxr-xr-x if owner, group or others may execute it, else rw-r--r--. */
  function Normalised(header: nat): nat {
    if exists bit :: bit in {1, 8, 64} && IsSet(header, bit) then 7 * 64 + 5 * 8 + 5 else 6 * 64 + 4 * 8 + 4
  }

  lemma KeepsNormalised(header: nat)
    ensures KeptMode(header) == Normalised(header)
  {
    assert IsSet(header, 1) <==> header % 2 == 1;
    assert Executable(header) <==> IsSet(header, 1) || IsSet(header, 8) || IsSet(header, 64);
  }

  /**
   An archive and a directory with the same names and bodies feed the same bytes exactly when every file
   on disk has permissions 0755 or 0644, as its archive header is executable or not.
   */
  lemma TwinsAgree(members: map<string, File>, s: seq<string>, disk: map<string, File>, t: seq<string>)
    requires members.Keys == disk.Keys && forall n :: n in members ==> members[n].body == disk[n].body
    requires Sorted(s) && Lists(s, FromArchive(members)) && Writable(FromArchive(members), true)
    requires Sorted(t) && Lists(t, disk)
    ensures Stream(FromArchive(members), s) == Stream(disk, t) <==>
              forall n :: n in disk ==> disk[n].mode % 4096 == Normalised(members[n].mode)
  {
    hide Stream, Record, Sorted, Encode, SafeArchiveName, KeptMode, Normalised;
    forall n | n in disk ensures KeptMode(members[n].mode) == Normalised(members[n].mode) {
      KeepsNormalised(members[n].mode);
    }
    var kept := FromArchive(members);
    assert kept.Keys == members.Keys;
    assert Writable(kept, false) && Writable(disk, false) by { BodiesFit(members, disk); }
    StreamsDetermineTrees(kept, s, disk, t);
    hide Fits;
    assert forall n :: n in disk ==>
      kept[n].mode % PERMISSIONS == KeptMode(members[n].mode) by { KeptModesFit(members); }
  }

  lemma BodiesFit(members: map<string, File>, disk: map<string, File>)
    requires members.Keys == disk.Keys && forall n :: n in members ==> members[n].body == disk[n].body
    requires Writable(FromArchive(members), true)
    ensures Writable(FromArchive(members), false) && Writable(disk, false)
  {
    hide SafeArchiveName, Encode, KeptMode;
    forall n | n in disk ensures Fits(n, disk[n]) {
      assert n in FromArchive(members) && FromArchive(members)[n].body == disk[n].body;
    }
  }

  lemma KeptModesFit(members: map<string, File>)
    ensures forall n :: n in members ==> FromArchive(members)[n].mode % PERMISSIONS == KeptMode(members[n].mode)
  {
  }
}
