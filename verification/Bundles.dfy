/** The embedded tool bundles and their content hash (pgtools/embed.go). File contents are text and a
    digest is injective by construction. */
module Bundles {
  import opened Strings
  import opened Models

  const NUL: char := '\0'

  /** `files` maps the clean relative paths of the payload to their bytes. */
  datatype Bundle = Bundle(platform: string, version: string, files: map<string, string>, available: bool)

  datatype Digest = Digest(data: string)

  // ---------- the bundle hash ----------

  /** The names in sorted order, however the map was walked. */
  ghost function SortedKeys(keys: set<string>): (names: seq<string>)
    ensures StrictlySorted(names) && forall x :: x in names <==> x in keys
  {
    if keys == {} then []
    else
      var x :| x in keys;
      Insert(x, SortedKeys(keys - {x}))
  }

  ghost predicate Lists(names: seq<string>, files: map<string, string>) {
    forall i :: 0 <= i < |names| ==> names[i] in files
  }

  /** What is hashed for one file, name and bytes, or for the platform and version: each ended by NUL. */
  function Entry(name: string, bytes: string): string {
    name + [NUL] + (bytes + [NUL])
  }

  ghost function Stream(names: seq<string>, files: map<string, string>): string
    requires Lists(names, files)
  {
    if names == [] then ""
    else Entry(names[0], files[names[0]]) + Stream(names[1..], files)
  }

  ghost function Serialised(b: Bundle): string {
    Entry(b.platform, b.version) + Stream(SortedKeys(b.files.Keys), b.files)
  }

  ghost function BundleHash(b: Bundle): Digest {
    Digest(Serialised(b))
  }

  /** What is fed to the hasher, spelled out for a bundle of two files. */
  lemma TwoFileStream(b: Bundle, x: string, y: string)
    requires b.files.Keys == {x, y} && Less(x, y)
    ensures BundleHash(b) == Digest((b.platform + "\0" + (b.version + "\0"))
                                    + ((x + "\0" + (b.files[x] + "\0")) + ((y + "\0" + (b.files[y] + "\0")) + "")))
  {
    hide Less, SortedKeys;
    SortedUnique(SortedKeys(b.files.Keys), [x, y]);
    assert [x, y][1..] == [y] && [y][1..] == [];
    assert Stream([y], b.files) == Entry(y, b.files[y]) + "";
  }

  function FileHashes(files: map<string, string>): map<string, Digest> {
    map name | name in files :: Digest(files[name])
  }

  lemma {:induction false} StreamAppend(names: seq<string>, name: string, files: map<string, string>)
    requires Lists(names, files) && name in files
    ensures Lists(names + [name], files)
    ensures Stream(names + [name], files) == Stream(names, files) + Entry(name, files[name])
  {
    hide Entry;
    if names != [] {
      StreamAppend(names[1..], name, files);
      assert (names + [name])[1..] == names[1..] + [name];
    } else {
      assert [name][1..] == [];
    }
  }

  /** The names of a map in sorted order: collected in any order, then sorted. */
  method SortedNames<V>(files: map<string, V>) returns (names: seq<string>)
    ensures names == SortedKeys(files.Keys)
  {
    names := [];
    var todo := files.Keys;
    while todo != {}
      invariant todo <= files.Keys && Distinct(names)
      invariant forall k :: k in names <==> k in files.Keys - todo
      decreases todo
    {
      var name :| name in todo;
      assert name !in names;
      todo := todo - {name};
      names := names + [name];
    }
    names := Sort(names);
    SortedUnique(names, SortedKeys(files.Keys));
  }

  ghost predicate HashesOf(hashes: map<string, Digest>, files: map<string, string>) {
    forall k :: k in hashes ==> k in files && hashes[k] == Digest(files[k])
  }

  lemma NoStream(files: map<string, string>)
    ensures Lists([], files) && Stream([], files) == ""
  {
  }

  lemma NoHashes(files: map<string, string>)
    ensures HashesOf(map[], files)
  {
  }

  lemma OneMoreHash(hashes: map<string, Digest>, files: map<string, string>, name: string)
    requires HashesOf(hashes, files) && name in files
    ensures HashesOf(hashes[name := Digest(files[name])], files)
  {
  }

  lemma AllHashes(hashes: map<string, Digest>, files: map<string, string>, names: seq<string>)
    requires HashesOf(hashes, files) && (forall j :: 0 <= j < |names| ==> names[j] in hashes)
    requires forall k :: k in files ==> k in names
    ensures hashes == FileHashes(files)
  {
  }

  lemma StreamGrows(names: seq<string>, i: nat, files: map<string, string>, head: string)
    requires i < |names| && Lists(names[..i], files) && names[i] in files
    ensures Lists(names[..i + 1], files)
    ensures head + Stream(names[..i + 1], files) == head + Stream(names[..i], files) + Entry(names[i], files[names[i]])
  {
    hide Entry;
    StreamAppend(names[..i], names[i], files);
    assert names[..i + 1] == names[..i] + [names[i]];
  }

  /** embeddedBundleHash: feeds the hasher piece by piece. */
  method ComputeBundleHash(b: Bundle) returns (hash: Digest, fileHashes: map<string, Digest>)
    ensures hash == BundleHash(b) && fileHashes == FileHashes(b.files)
  {
    hide Entry, StrictlySorted, HashesOf, FileHashes, Lists, Stream, SortedKeys;
    var hashed := Entry(b.platform, b.version);
    fileHashes := map[];
    var names := SortedNames(b.files);
    NoHashes(b.files);
    NoStream(b.files);
    assert names[..0] == [];
    for i := 0 to |names|
      invariant Lists(names[..i], b.files)
      invariant hashed == Entry(b.platform, b.version) + Stream(names[..i], b.files)
      invariant HashesOf(fileHashes, b.files)
      invariant forall j :: 0 <= j < i ==> names[j] in fileHashes
    {
      var name := names[i];
      assert name in names;
      StreamGrows(names, i, b.files, Entry(b.platform, b.version));
      OneMoreHash(fileHashes, b.files, name);
      fileHashes := fileHashes[name := Digest(b.files[name])];
      hashed := hashed + Entry(name, b.files[name]);
    }
    assert names[..|names|] == names;
    AllHashes(fileHashes, b.files, names);
    return Digest(hashed), fileHashes;
  }

  // ---------- what the hash tells apart ----------

  /** The same names, each with as many bytes. */
  ghost predicate SameSizes(a: map<string, string>, b: map<string, string>) {
    a.Keys == b.Keys && forall name :: name in a ==> |a[name]| == |b[name]|
  }

  /** Two bundles with one hash are the same bundle exactly when platform, version and every file
      agree in length. Nothing is asked of the bytes themselves. */
  lemma HashIdentifiesBundle(a: Bundle, b: Bundle)
    requires BundleHash(a) == BundleHash(b)
    ensures a.platform == b.platform && a.version == b.version && a.files == b.files <==>
              |a.platform| == |b.platform| && |a.version| == |b.version| && SameSizes(a.files, b.files)
  {
    hide Entry, Stream, SortedKeys;
    if |a.platform| == |b.platform| && |a.version| == |b.version| && SameSizes(a.files, b.files) {
      var names := SortedKeys(a.files.Keys);
      EqualEntriesSplit(a.platform, a.version, Stream(names, a.files), b.platform, b.version, Stream(names, b.files));
      SizesFixTheFiles(names, a.files, b.files);
      assert forall name :: name in a.files ==> name in names;
    }
  }

  lemma EqualEntriesSplit(a: string, b: string, rest: string, c: string, d: string, other: string)
    requires |a| == |c| && |b| == |d| && Entry(a, b) + rest == Entry(c, d) + other
    ensures a == c && b == d && rest == other
  {
    var s, n := Entry(a, b) + rest, |a| + 1 + |b| + 1;
    assert a == s[..|a|] && b == s[|a| + 1..|a| + 1 + |b|] && rest == s[n..];
    assert c == s[..|a|] && d == s[|a| + 1..|a| + 1 + |b|] && other == s[n..];
  }

  lemma {:induction false} SizesFixTheFiles(names: seq<string>, a: map<string, string>, b: map<string, string>)
    requires SameSizes(a, b) && Lists(names, a) && Lists(names, b) && Stream(names, a) == Stream(names, b)
    ensures forall name :: name in names ==> a[name] == b[name]
  {
    hide Entry;
    if names != [] {
      EqualEntriesSplit(names[0], a[names[0]], Stream(names[1..], a), names[0], b[names[0]], Stream(names[1..], b));
      SizesFixTheFiles(names[1..], a, b);
    }
  }

  ghost predicate NulFree(b: Bundle) {
    && NUL !in b.platform && NUL !in b.version
    && forall name :: name in b.files ==> NUL !in name && NUL !in b.files[name]
  }

  lemma HeadsSplit(a: string, b: string, rest: string, c: string, d: string, other: string)
    requires NUL !in a && NUL !in b && NUL !in c && NUL !in d
    requires Entry(a, b) + rest == Entry(c, d) + other
    ensures a == c && b == d && rest == other
  {
    var x, y := b + [NUL] + rest, d + [NUL] + other;
    assert Entry(a, b) + rest == a + [NUL] + x;
    assert Entry(c, d) + other == c + [NUL] + y;
    FirstSeparatorSplits(NUL, a, c, x, y);
    FirstSeparatorSplits(NUL, b, d, rest, other);
  }

  /** Without NUL bytes the hash alone identifies the bundle: texts need not even agree in length. */
  lemma NulFreeHashIdentifiesBundle(a: Bundle, b: Bundle)
    requires NulFree(a) && NulFree(b) && BundleHash(a) == BundleHash(b)
    ensures a.platform == b.platform && a.version == b.version && a.files == b.files
  {
    var namesA, namesB := SortedKeys(a.files.Keys), SortedKeys(b.files.Keys);
    var restA, restB := Stream(namesA, a.files), Stream(namesB, b.files);
    HeadsSplit(a.platform, a.version, restA, b.platform, b.version, restB);
    StreamIdentifiesFiles(namesA, namesB, a, b);
    assert forall k :: k in a.files <==> k in namesA;
    assert forall k :: k in b.files <==> k in namesB;
    assert a.files == b.files;
  }

  lemma {:induction false} StreamIdentifiesFiles(namesA: seq<string>, namesB: seq<string>, a: Bundle, b: Bundle)
    requires NulFree(a) && NulFree(b) && Lists(namesA, a.files) && Lists(namesB, b.files)
    requires Stream(namesA, a.files) == Stream(namesB, b.files)
    ensures namesA == namesB && forall k :: k in namesA ==> a.files[k] == b.files[k]
    decreases |namesA|
  {
    if namesA != [] && namesB != [] {
      var nameA, nameB := namesA[0], namesB[0];
      var restA, restB := Stream(namesA[1..], a.files), Stream(namesB[1..], b.files);
      HeadsSplit(nameA, a.files[nameA], restA, nameB, b.files[nameB], restB);
      StreamIdentifiesFiles(namesA[1..], namesB[1..], a, b);
      assert namesA == [nameA] + namesA[1..] && namesB == [nameB] + namesB[1..];
    }
  }

  // ---------- finding the executables ----------

  /** path.Base of a clean relative path: what follows the last slash. */
  function Base(name: string): string {
    if name == "" || '/' !in name then name else Base(name[1..])
  }

  /** A path to a file of this name: the bare name, or the name after a last slash. */
  ghost predicate LeadsTo(path: string, name: string) {
    path == name || exists dir: string :: path == dir + "/" + name
  }

  /** The base name is what stands after the last slash, and it holds no slash itself. */
  lemma {:induction false} BaseIsLastPart(path: string, name: string)
    requires '/' !in name
    ensures '/' !in Base(path)
    ensures Base(path) == name <==> LeadsTo(path, name)
  {
    if path == "" || '/' !in path {
      forall dir: string ensures path != dir + "/" + name {
        assert (dir + "/" + name)[|dir|] == '/';
      }
    } else {
      BaseIsLastPart(path[1..], name);
      assert path == [path[0]] + path[1..];
      if Base(path) == name {
        if path[1..] == name {
          assert path == "" + "/" + name;
        } else {
          var dir: string :| path[1..] == dir + "/" + name;
          assert path == ([path[0]] + dir) + "/" + name;
        }
      } else if dir: string :| path == dir + "/" + name {
        NotBaseOfRest(path, dir, name);
      }
    }
  }

  lemma NotBaseOfRest(path: string, dir: string, name: string)
    requires path == dir + "/" + name
    ensures LeadsTo(path[1..], name)
  {
    if dir == "" {
      assert path[1..] == name;
    } else {
      assert path[1..] == dir[1..] + "/" + name;
    }
  }

  predicate IsWindows(platform: string) {
    "windows-" <= platform
  }

  /** binaryNameForPlatform */
  function BinaryName(platform: string, base: string): string {
    if IsWindows(platform) then base + ".exe" else base
  }

  function RequiredBinaries(platform: string): seq<string> {
    [BinaryName(platform, "pg_dump"), BinaryName(platform, "pg_restore")]
  }

  /** What the programs are called: with .exe on every platform whose name starts with windows-. */
  lemma ProgramNames(platform: string, arch: string, base: string)
    ensures BinaryName("windows-" + arch, base) == base + ".exe"
    ensures RequiredBinaries("windows-" + arch) == ["pg_dump.exe", "pg_restore.exe"]
    ensures !("windows-" <= platform) ==> BinaryName(platform, base) == base && RequiredBinaries(platform) == ["pg_dump", "pg_restore"]
  {
    assert "windows-" <= "windows-" + arch;
    assert "pg_dump" + ".exe" == "pg_dump.exe" && "pg_restore" + ".exe" == "pg_restore.exe";
  }

  /** The first of the names with this base name. */
  function FirstNamed(names: seq<string>, binary: string): (found: Option<string>)
    ensures found.Some? ==> found.value in names && Base(found.value) == binary
    ensures found.None? ==> forall name :: name in names ==> Base(name) != binary
  {
    if names == [] then None
    else if Base(names[0]) == binary then Some(names[0])
    else FirstNamed(names[1..], binary)
  }

  /** Where an executable is: the answer depends on the names alone, so the embedded files and the
      hashes of an install marker agree on it. */
  ghost function Located(names: set<string>, binary: string): (found: Option<string>)
    ensures found.Some? ==> found.value in names && Base(found.value) == binary
    ensures found.None? ==> forall name :: name in names ==> Base(name) != binary
  {
    FirstNamed(SortedKeys(names), binary)
  }

  /** binaryRelativePath and embeddedBinaryRelativePath */
  method RelativePath<V>(files: map<string, V>, binary: string) returns (found: Option<string>)
    ensures found == Located(files.Keys, binary)
    // The least of the paths that lead to it, if there is one.
    ensures '/' !in binary ==> (found.Some? <==> exists path :: path in files && LeadsTo(path, binary))
    ensures '/' !in binary && found.Some? ==> found.value in files && LeadsTo(found.value, binary)
    ensures '/' !in binary && found.Some? ==> forall path :: path in files && LeadsTo(path, binary) ==> path == found.value || Less(found.value, path)
  {
    hide LeadsTo, Less, StrictlySorted;
    if '/' !in binary {
      LocatedIsLeast(files.Keys, binary);
    }
    var names := SortedNames(files);
    for i := 0 to |names|
      invariant FirstNamed(names, binary) == FirstNamed(names[i..], binary)
    {
      if Base(names[i]) == binary {
        return Some(names[i]);
      }
      assert names[i..][1..] == names[i + 1..];
    }
    return None;
  }

  /** The least name with this base name. */
  lemma {:induction false} FirstNamedIsLeast(names: seq<string>, binary: string, other: string)
    requires StrictlySorted(names) && other in names && Base(other) == binary
    ensures var found := FirstNamed(names, binary); found.Some? && (found.value == other || Less(found.value, other))
  {
    if Base(names[0]) == binary {
      HeadIsLeast(names, other);
    } else {
      assert other in names[1..];
      FirstNamedIsLeast(names[1..], binary, other);
    }
  }

  lemma LocatedIsLeast(keys: set<string>, binary: string)
    requires '/' !in binary
    ensures var found := Located(keys, binary);
      && (found.Some? <==> exists path :: path in keys && LeadsTo(path, binary))
      && (found.Some? ==> found.value in keys && LeadsTo(found.value, binary))
      && (found.Some? ==> forall path :: path in keys && LeadsTo(path, binary) ==> path == found.value || Less(found.value, path))
  {
    hide FirstNamed, StrictlySorted, LeadsTo, Less, Base;
    forall path ensures Base(path) == binary <==> LeadsTo(path, binary) {
      BaseIsLastPart(path, binary);
    }
    forall path | path in keys && LeadsTo(path, binary)
      ensures Located(keys, binary).Some? && (path == Located(keys, binary).value || Less(Located(keys, binary).value, path))
    {
      FirstNamedIsLeast(SortedKeys(keys), binary, path);
    }
  }

  // ---------- a collision ----------

  /** Executables for linux-amd64; one of them holds two NUL bytes. */
  function OneBinaryLess(dump: string): Bundle {
    Bundle("linux-amd64", "18.3", map["pg_dump" := dump, "pg_restore" := "y\0z\0w"], true)
  }

  /** The same stream, read as one more file. */
  function OneFileMore(dump: string): Bundle {
    Bundle("linux-amd64", "18.3", map["pg_dump" := dump, "pg_restore" := "y", "z" := "w"], true)
  }

  lemma PgNames()
    ensures Less("pg_dump", "pg_restore") && Less("pg_restore", "z") && "pg_dump" != "pg_restore"
    ensures Base("pg_dump") == "pg_dump" && Base("pg_restore") == "pg_restore" && Base("z") == "z"
    ensures RequiredBinaries("linux-amd64") == ["pg_dump", "pg_restore"]
  {
    assert "pg_dump"[3] < "pg_restore"[3];
    assert Less("pg_dump"[3..], "pg_restore"[3..]);
    assert Less("pg_dump"[2..], "pg_restore"[2..]);
    assert Less("pg_dump"[1..], "pg_restore"[1..]);
    assert '/' !in "pg_dump" && '/' !in "pg_restore" && '/' !in "z";
    assert !IsWindows("linux-amd64") by { assert "windows-"[0] != "linux-amd64"[0]; }
  }

  /** Both bundles have their executables, so both can be installed; their files differ, and yet they
      share a hash, and so a cache directory. */
  lemma HashCollision(dump: string)
    ensures var a, b := OneBinaryLess(dump), OneFileMore(dump);
      && a.files != b.files && BundleHash(a) == BundleHash(b)
      && (forall i :: 0 <= i < |RequiredBinaries(a.platform)| ==> Located(a.files.Keys, RequiredBinaries(a.platform)[i]).Some?)
      && (forall i :: 0 <= i < |RequiredBinaries(b.platform)| ==> Located(b.files.Keys, RequiredBinaries(b.platform)[i]).Some?)
  {
    hide SortedKeys, Stream, Located, Base, Less, RequiredBinaries;
    PgNames();
    CollidingNames(dump);
    CollidingStreams(dump);
    assert "pg_dump" in OneBinaryLess(dump).files && "pg_restore" in OneBinaryLess(dump).files && "z" in OneFileMore(dump).files;
    assert "z" !in OneBinaryLess(dump).files by { assert |"z"| != |"pg_dump"| && |"z"| != |"pg_restore"|; }
  }

  lemma CollidingNames(dump: string)
    ensures SortedKeys(OneBinaryLess(dump).files.Keys) == ["pg_dump", "pg_restore"]
    ensures SortedKeys(OneFileMore(dump).files.Keys) == ["pg_dump", "pg_restore", "z"]
  {
    hide SortedKeys, Less, Base;
    PgNames();
    LessTransitive("pg_dump", "pg_restore", "z");
    SortedUnique(SortedKeys(OneBinaryLess(dump).files.Keys), ["pg_dump", "pg_restore"]);
    SortedUnique(SortedKeys(OneFileMore(dump).files.Keys), ["pg_dump", "pg_restore", "z"]);
  }

  lemma CollidingStreams(dump: string)
    ensures var a, b := OneBinaryLess(dump).files, OneFileMore(dump).files;
            Stream(["pg_dump", "pg_restore"], a) == Stream(["pg_dump", "pg_restore", "z"], b)
  {
    hide Entry, Less, Base, RequiredBinaries;
    PgNames();
    CollidingEntries();
    var a, b := OneBinaryLess(dump).files, OneFileMore(dump).files;
    assert ["pg_dump", "pg_restore"][1..] == ["pg_restore"] && ["pg_restore"][1..] == [];
    assert ["pg_dump", "pg_restore", "z"][1..] == ["pg_restore", "z"] && ["pg_restore", "z"][1..] == ["z"] && ["z"][1..] == [];
    assert Stream(["pg_restore"], a) == Entry("pg_restore", "y\0z\0w") + "";
    assert Stream(["z"], b) == Entry("z", "w") + "";
  }

  lemma CollidingEntries()
    ensures Entry("pg_restore", "y\0z\0w") + "" == Entry("pg_restore", "y") + (Entry("z", "w") + "")
  {
  }
}
