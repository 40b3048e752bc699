/** The content-addressed install cache (pgtools/extract.go): one call of Ensure, step by step.
    A directory is a map from relative path to content; which calls into the file system fail is a
    parameter of each call. */
module InstallCache {
  import opened Strings
  import opened Models
  import opened Bundles

  const MARKER := ".installed"
  const SCHEMA_VERSION := 1

  datatype Marker = Marker(schema: int, platform: string, version: string, hash: Digest, files: map<string, Digest>, createdAt: int)

  /** What a file holds: plain bytes, or text that decodes as an install marker. */
  datatype Content = Raw(bytes: string) | Marked(marker: Marker)

  type Dir = map<string, Content>

  predicate Holds(c: Content, digest: Digest) {
    c.Raw? && Digest(c.bytes) == digest
  }

  /** The marker is compared without its file list and its time. */
  predicate MarkerMatches(c: Content, want: Marker) {
    c.Marked? && c.marker.schema == want.schema && c.marker.platform == want.platform
    && c.marker.version == want.version && c.marker.hash == want.hash
  }

  ghost predicate HasBinary(d: Dir, want: Marker, binary: string) {
    Located(want.files.Keys, binary).Some? && Located(want.files.Keys, binary).value in d
  }

  /** Marker, executables and every file as wanted. Files the bundle does not know are not looked at. */
  ghost predicate ValidInstall(d: Option<Dir>, want: Marker) {
    && d.Some? && MARKER in d.value && MarkerMatches(d.value[MARKER], want)
    && (forall i :: 0 <= i < |RequiredBinaries(want.platform)| ==> HasBinary(d.value, want, RequiredBinaries(want.platform)[i]))
    && forall name :: name in want.files ==> name in d.value && Holds(d.value[name], want.files[name])
  }

  /** Some of the entries of `whole`, each unchanged; or no directory at all. */
  ghost predicate PartOf(d: Option<Dir>, whole: Option<Dir>) {
    d.None? || (whole.Some? && d.value.Keys <= whole.value.Keys && forall k :: k in d.value ==> d.value[k] == whole.value[k])
  }

  /** A marker for this bundle, whatever its time. */
  ghost predicate WantedBy(b: Bundle, want: Marker) {
    want == Marker(SCHEMA_VERSION, b.platform, b.version, BundleHash(b), FileHashes(b.files), want.createdAt)
  }

  /** The time of the marker plays no part in validation. */
  lemma AnyTime(b: Bundle, want: Marker, other: Marker, d: Option<Dir>)
    requires WantedBy(b, want) && WantedBy(b, other)
    ensures ValidInstall(d, want) <==> ValidInstall(d, other)
  {
  }

  /** What one file may hold once it is written and perhaps signed: its own bytes, unless the signer
      changes the bytes of files it signs. */
  predicate Installed(b: Bundle, signs: set<string>, preserving: bool, name: string, c: Content) {
    name in b.files && c.Raw? && (name !in signs || preserving ==> c == Raw(b.files[name]))
  }

  ghost predicate Payload(d: Dir, b: Bundle, signs: set<string>, preserving: bool) {
    d.Keys == b.files.Keys && forall name :: name in b.files ==> Installed(b, signs, preserving, name, d[name])
  }

  /** A finished install: all files, the marker on top of them, nothing else. */
  ghost predicate Whole(d: Dir, b: Bundle, signs: set<string>, preserving: bool) {
    && d.Keys == b.files.Keys + {MARKER}
    && d[MARKER].Marked? && WantedBy(b, d[MARKER].marker)
    && forall name :: name in b.files && name != MARKER ==> Installed(b, signs, preserving, name, d[name])
  }

  ghost predicate SignerPreserved(d: Dir, b: Bundle, signs: set<string>) {
    forall name :: name in b.files && name in signs ==> name in d && d[name] == Raw(b.files[name])
  }

  ghost predicate HasBinaries(b: Bundle) {
    forall i :: 0 <= i < |RequiredBinaries(b.platform)| ==> Located(b.files.Keys, RequiredBinaries(b.platform)[i]).Some?
  }

  /** A finished install passes validation, and so is left alone by the next call, exactly when the
      signer kept the bytes it signed and no file of the bundle is named like the marker. */
  lemma WholeIsValid(d: Dir, b: Bundle, signs: set<string>, preserving: bool, want: Marker)
    requires WantedBy(b, want) && HasBinaries(b) && Whole(d, b, signs, preserving)
    ensures ValidInstall(Some(d), want) <==> SignerPreserved(d, b, signs) && MARKER !in b.files
  {
    hide Located, BundleHash, RequiredBinaries;
    WantedFiles(b, want);
    SameMarkers(b, want, d[MARKER].marker);
    if MARKER in b.files {
      assert MARKER in want.files && !Holds(d[MARKER], want.files[MARKER]);
    } else if SignerPreserved(d, b, signs) {
      forall name | name in want.files ensures name in d && Holds(d[name], want.files[name]) {
        assert name in b.files && d[name] == Raw(b.files[name]);
      }
      BinariesAreThere(d, b, want);
    } else {
      var name :| name in b.files && name in signs && !(name in d && d[name] == Raw(b.files[name]));
      assert name in want.files && !Holds(d[name], want.files[name]);
    }
  }

  lemma SameMarkers(b: Bundle, want: Marker, other: Marker)
    requires WantedBy(b, want) && WantedBy(b, other)
    ensures MarkerMatches(Marked(other), want)
  {
  }

  lemma WantedFiles(b: Bundle, want: Marker)
    requires WantedBy(b, want)
    ensures want.platform == b.platform && want.files.Keys == b.files.Keys
    ensures forall name :: name in b.files ==> want.files[name] == Digest(b.files[name])
  {
  }

  lemma BinariesAreThere(d: Dir, b: Bundle, want: Marker)
    requires WantedBy(b, want) && HasBinaries(b) && b.files.Keys <= d.Keys
    ensures forall i :: 0 <= i < |RequiredBinaries(want.platform)| ==> HasBinary(d, want, RequiredBinaries(want.platform)[i])
  {
    hide BundleHash;
    WantedFiles(b, want);
  }

  /** Validation never accepts foreign bytes, not even from a bundle with the same hash. */
  lemma ValidHoldsTheBundle(d: Option<Dir>, b: Bundle, want: Marker)
    requires WantedBy(b, want) && ValidInstall(d, want)
    ensures forall name :: name in b.files ==> name in d.value && d.value[name] == Raw(b.files[name])
  {
  }

  datatype Paths = Paths(pgDump: string, pgRestore: string)

  datatype Error = Cancelled | NotStaged | NoBinary | RemoveFailed | MkdirFailed | WriteFailed | MarkerFailed | ActivateFailed

  /** writeFiles refuses names that would leave the directory. Bundle names are clean already. */
  predicate Safe(name: string) {
    name != "" && name != "." && !(".." <= name) && !("/" <= name)
  }

  /** The calls of one Ensure that can fail: the removal of the old entries and of their directory, the
      temporary directory, and for each file a live context, its directory, bytes, permissions, signature. */
  datatype FileCall =
    | RemoveEntryOf(name: string) | RemoveDirectory | MakeTempDir
    | ContextAt(name: string) | MakeParent(name: string) | WriteBytes(name: string) | Chmod(name: string) | SignFile(name: string)
    | WriteMarker | Activate

  ghost predicate Removable(d: Option<Dir>, fails: FileCall -> bool) {
    d.None? || (!fails(RemoveDirectory) && forall name :: name in d.value ==> !fails(RemoveEntryOf(name)))
  }

  /** This file can be installed. */
  predicate FileWorks(name: string, signs: set<string>, fails: FileCall -> bool) {
    && Safe(name) && !fails(ContextAt(name)) && !fails(MakeParent(name)) && !fails(WriteBytes(name)) && !fails(Chmod(name))
    && (name in signs ==> !fails(SignFile(name)))
  }

  ghost predicate SafeFiles(b: Bundle) {
    forall name :: name in b.files ==> Safe(name)
  }

  class Extractor {
    const bundle: Bundle
    const signs: set<string>     // the files ShouldSign picks
    const preserving: bool       // signing leaves the bytes as they are
    var final: Option<Dir>       // the cache directory named after the hash
    var tmp: Option<Dir>         // this call's temporary directory
    var attempts: nat            // mutating file system calls made
    ghost var trail: seq<Option<Dir>>  // what finalDir was after each change: where a crash can leave it

    constructor (bundle: Bundle, signs: set<string>, preserving: bool, found: Option<Dir>)
      ensures this.bundle == bundle && this.signs == signs && this.preserving == preserving
      ensures final == found && tmp == None && attempts == 0 && trail == []
    {
      this.bundle, this.signs, this.preserving := bundle, signs, preserving;
      final, tmp, attempts, trail := found, None, 0, [];
    }

    /** The checks in validateInstall's order; the files in any order. */
    method Validate(want: Marker) returns (valid: bool)
      ensures valid <==> ValidInstall(final, want)
    {
      if final.None? || MARKER !in final.value || !MarkerMatches(final.value[MARKER], want) {
        return false;
      }
      var binaries := RequiredBinaries(want.platform);
      for i := 0 to |binaries|
        invariant forall j :: 0 <= j < i ==> HasBinary(final.value, want, binaries[j])
      {
        var rel := RelativePath(want.files, binaries[i]);
        if rel.None? || rel.value !in final.value {
          assert !HasBinary(final.value, want, binaries[i]);
          return false;
        }
      }
      var todo := want.files.Keys;
      while todo != {}
        invariant todo <= want.files.Keys
        invariant forall name :: name in want.files && name !in todo ==> name in final.value && Holds(final.value[name], want.files[name])
        decreases todo
      {
        var name :| name in todo;
        if name !in final.value || !Holds(final.value[name], want.files[name]) {
          return false;
        }
        todo := todo - {name};
      }
      return true;
    }

    /** RemoveAll of finalDir: entry by entry, and it may give up half way. */
    method RemoveFinal(fails: FileCall -> bool) returns (failed: bool)
      modifies this`final, this`attempts, this`trail
      ensures failed <==> !Removable(old(final), fails)
      ensures !failed ==> final == None
      ensures PartOf(final, old(final)) && attempts > old(attempts)
      ensures old(trail) <= trail && forall i :: |old(trail)| <= i < |trail| ==> PartOf(trail[i], old(final))
    {
      attempts := attempts + 1;
      while final.Some? && final.value != map[]
        invariant PartOf(final, old(final)) && attempts > old(attempts)
        invariant final.Some? <==> old(final).Some?
        invariant old(final).Some? ==> forall name :: name in old(final).value && name !in final.value ==> !fails(RemoveEntryOf(name))
        invariant old(trail) <= trail && forall i :: |old(trail)| <= i < |trail| ==> PartOf(trail[i], old(final))
        decreases if final.Some? then final.value.Keys else {}
      {
        var name :| name in final.value;
        if fails(RemoveEntryOf(name)) {
          return true;
        }
        ghost var before := final.value;
        final := Some(final.value - {name});
        assert final.value.Keys == before.Keys - {name};
        trail := trail + [final];
      }
      if final.Some? {
        if fails(RemoveDirectory) {
          return true;
        }
        final := None;
        trail := trail + [final];
      }
      return false;
    }

    /** os.WriteFile: truncates first, so a failure leaves a part of the content. */
    method WriteFile(name: string, content: Content, fails: bool) returns (failed: bool)
      requires tmp.Some?
      modifies this`tmp, this`attempts
      ensures tmp.Some? && attempts > old(attempts) && failed == fails
      ensures !failed ==> tmp == Some(old(tmp).value[name := content])
    {
      attempts := attempts + 1;
      failed := fails;
      if failed {
        var part: string := *;
        tmp := Some(tmp.value[name := Raw(part)]);
        return;
      }
      tmp := Some(tmp.value[name := content]);
    }

    /** The signer may change the bytes, and may have done so when it reports a failure. */
    method Sign(name: string)
      requires tmp.Some? && name in tmp.value && tmp.value[name].Raw?
      modifies this`tmp
      ensures tmp.Some? && exists bytes :: tmp == Some(old(tmp).value[name := Raw(bytes)])
      ensures preserving ==> tmp == old(tmp)
    {
      var bytes := tmp.value[name].bytes;
      ghost var before := tmp.value;
      if !preserving {
        bytes := *;
        tmp := Some(tmp.value[name := Raw(bytes)]);
      }
      assert before[name := Raw(before[name].bytes)] == before;
      assert tmp == Some(before[name := Raw(bytes)]);
    }

    /** The part of the payload that `names` make up. */
    ghost predicate Written(d: Dir, names: seq<string>) {
      && (forall name :: name in d <==> name in names)
      && forall name :: name in names ==> Installed(bundle, signs, preserving, name, d[name])
    }

    /** One file: its directory, its bytes, its permissions and its signature. A failed chmod or
        signature does not stop the loop. */
    method InstallFile(name: string, fails: FileCall -> bool) returns (stop: bool, failed: bool, ghost c: Content)
      requires tmp.Some? && name in bundle.files && Safe(name) && !fails(ContextAt(name))
      modifies this`tmp, this`attempts
      ensures !stop && !failed <==> FileWorks(name, signs, fails)
      ensures tmp.Some? && attempts >= old(attempts)
      ensures !stop && !failed ==> Installed(bundle, signs, preserving, name, c) && tmp == Some(old(tmp).value[name := c])
    {
      c := Raw(bundle.files[name]);
      if fails(MakeParent(name)) {
        return true, true, c;
      }
      stop := WriteFile(name, Raw(bundle.files[name]), fails(WriteBytes(name)));
      if stop {
        return true, true, c;
      }
      failed := fails(Chmod(name));
      assert Installed(bundle, signs, preserving, name, Raw(bundle.files[name]));
      if !failed && name in signs {
        ghost var written := tmp.value;
        Sign(name);
        failed := fails(SignFile(name));
        ghost var bytes :| tmp == Some(written[name := Raw(bytes)]);
        assert written[name := Raw(bytes)] == old(tmp).value[name := Raw(bytes)];
        c := Raw(bytes);
      }
    }

    lemma WrittenGrows(d: Dir, names: seq<string>, i: nat, c: Content)
      requires i < |names| && Distinct(names) && Written(d, names[..i]) && Installed(bundle, signs, preserving, names[i], c)
      ensures Written(d[names[i] := c], names[..i + 1])
    {
      assert names[..i + 1] == names[..i] + [names[i]];
    }

    lemma WrittenIsPayload(d: Dir, names: seq<string>)
      requires Written(d, names) && forall name :: name in names <==> name in bundle.files
      ensures Payload(d, bundle, signs, preserving)
    {
    }

    /** All files in sorted order; a cancelled context or an unsafe name stops the loop. */
    method WriteFiles(fails: FileCall -> bool) returns (failed: bool)
      requires tmp == Some(map[])
      modifies this`tmp, this`attempts
      ensures failed <==> exists name :: name in bundle.files && !FileWorks(name, signs, fails)
      ensures tmp.Some? && attempts >= old(attempts)
      ensures !failed ==> Payload(tmp.value, bundle, signs, preserving)
      ensures !failed ==> SafeNames()
    {
      hide Installed, Written, Payload, SignerPreserved, Safe, SafeFiles, FileWorks, AllWork, StrictlySorted, Distinct, Located;
      var names := SortedNames(bundle.files);
      SortedIsDistinct(names);
      failed := false;
      NothingWritten();
      AllOfThemWork(names, fails);
      assert AllWork([], fails) by { NoneToWork(fails); }
      assert names[..0] == [];
      for i := 0 to |names|
        invariant tmp.Some? && attempts >= old(attempts)
        invariant !failed ==> Written(tmp.value, names[..i])
        invariant !failed <==> AllWork(names[..i], fails)
      {
        assert names[i] in names;
        OneMoreWorks(names, i, fails);
        if fails(ContextAt(names[i])) || !Safe(names[i]) {
          assert !FileWorks(names[i], signs, fails) by { NeedsContextAndName(names[i], fails); }
          return true;
        }
        ghost var before := tmp.value;
        var stop, fileFailed;
        ghost var c;
        stop, fileFailed, c := InstallFile(names[i], fails);
        if stop {
          return true;
        }
        if !failed && !fileFailed {
          WrittenGrows(before, names, i, c);
        }
        failed := failed || fileFailed;
      }
      assert names[..|names|] == names;
      if !failed {
        WrittenIsPayload(tmp.value, names);
        WorkingIsSafe(fails);
      }
    }

    ghost predicate AllWork(names: seq<string>, fails: FileCall -> bool) {
      forall i :: 0 <= i < |names| ==> FileWorks(names[i], signs, fails)
    }

    lemma NoneToWork(fails: FileCall -> bool)
      ensures AllWork([], fails)
    {
    }

    lemma OneMoreWorks(names: seq<string>, i: nat, fails: FileCall -> bool)
      requires i < |names|
      ensures AllWork(names[..i + 1], fails) <==> AllWork(names[..i], fails) && FileWorks(names[i], signs, fails)
      ensures !FileWorks(names[i], signs, fails) ==> !AllWork(names, fails)
    {
      hide FileWorks;
      if AllWork(names[..i + 1], fails) {
        forall k | 0 <= k < |names[..i]| ensures FileWorks(names[..i][k], signs, fails) {
          assert names[..i + 1][k] == names[..i][k];
        }
        assert names[..i + 1][i] == names[i];
      }
    }

    lemma AllOfThemWork(names: seq<string>, fails: FileCall -> bool)
      requires forall name :: name in names <==> name in bundle.files
      ensures AllWork(names, fails) <==> forall name :: name in bundle.files ==> FileWorks(name, signs, fails)
    {
      hide FileWorks;
      if AllWork(names, fails) {
        forall name | name in bundle.files ensures FileWorks(name, signs, fails) {
          assert name in names;
        }
      } else {
        var i :| 0 <= i < |names| && !FileWorks(names[i], signs, fails);
        assert names[i] in bundle.files;
      }
    }

    lemma WorkingIsSafe(fails: FileCall -> bool)
      requires forall name :: name in bundle.files ==> FileWorks(name, signs, fails)
      ensures SafeNames()
    {
      hide Safe;
    }

    lemma NeedsContextAndName(name: string, fails: FileCall -> bool)
      requires fails(ContextAt(name)) || !Safe(name)
      ensures !FileWorks(name, signs, fails)
    {
    }

    lemma NothingWritten()
      ensures Written(map[], [])
    {
    }

    /** A directory can only take the place of an empty one or of none. */
    method Rename(fails: bool) returns (failed: bool)
      requires tmp.Some?
      modifies this`final, this`tmp, this`attempts, this`trail
      ensures failed <==> fails || (old(final).Some? && old(final).value != map[])
      ensures attempts > old(attempts)
      ensures failed ==> final == old(final) && tmp == old(tmp) && trail == old(trail)
      ensures !failed ==> final == old(tmp) && tmp == None && trail == old(trail) + [final]
    {
      attempts := attempts + 1;
      if fails || (final.Some? && final.value != map[]) {
        return true;
      }
      final, tmp := tmp, None;
      trail := trail + [final];
      return false;
    }

    /** The deferred RemoveAll of the temporary directory; nobody looks at its outcome. */
    method CleanUp()
      modifies this`tmp
    {
      var removed: bool := *;
      if removed {
        tmp := None;
      }
    }

    /** The bundle can be installed at all: staged, with both executables. */
    ghost predicate Ready() {
      bundle.available && HasBinaries(bundle)
    }

    /** Every call that replacing this cache takes succeeds, and no name would leave the directory. */
    ghost predicate CanInstall(found: Option<Dir>, fails: FileCall -> bool) {
      && Removable(found, fails) && !fails(MakeTempDir) && !fails(WriteMarker) && !fails(Activate)
      && forall name :: name in bundle.files ==> FileWorks(name, signs, fails)
    }

    ghost predicate SafeNames() {
      SafeFiles(bundle)
    }

    ghost predicate Installs(d: Option<Dir>) {
      d.Some? && Whole(d.value, bundle, signs, preserving) && SafeNames()
    }

    ghost predicate Good(d: Option<Dir>) {
      exists want :: WantedBy(bundle, want) && ValidInstall(d, want)
    }

    /** Where a crash during the call can leave finalDir: with some of what was there before, or with
        a finished install, and never with the beginning of a new one. */
    ghost predicate CrashSafe(before: Option<Dir>, since: nat)
      reads this`trail
    {
      since <= |trail| && forall i :: since <= i < |trail| ==> PartOf(trail[i], before) || Installs(trail[i])
    }

    method Ensure(cancelled: bool, createdAt: int, fails: FileCall -> bool) returns (r: Result<Paths, Error>)
      modifies this`final, this`tmp, this`attempts, this`trail
      // Exactly when the call succeeds.
      ensures r.Ok? <==> !cancelled && Ready() && (old(Good(final)) || CanInstall(old(final), fails))
      ensures cancelled ==> r == Err(Cancelled)
      ensures !cancelled && !Ready() ==> r == Err(if bundle.available then NoBinary else NotStaged)
      // Nothing is touched when the call cannot go ahead or the install is valid.
      ensures cancelled || !Ready() || old(Good(final)) ==> final == old(final) && attempts == old(attempts) && trail == old(trail)
      ensures r.Ok? && !old(Good(final)) ==> Installs(final) && attempts > old(attempts)
      ensures r.Err? ==> PartOf(final, old(final))
      ensures CrashSafe(old(final), |old(trail)|)
      ensures !cancelled && Ready() && !old(Good(final)) ==> attempts > old(attempts)
      ensures r.Ok? ==> Some(r.value.pgDump) == Located(bundle.files.Keys, BinaryName(bundle.platform, "pg_dump"))
      ensures r.Ok? ==> Some(r.value.pgRestore) == Located(bundle.files.Keys, BinaryName(bundle.platform, "pg_restore"))
      // A bundle lacks its programs exactly when no path in it leads to one of them.
      ensures r == Err(NoBinary) <==> !cancelled && bundle.available && !(HasProgram("pg_dump") && HasProgram("pg_restore"))
      ensures r.Ok? ==> LeadsTo(r.value.pgDump, Program("pg_dump")) && LeadsTo(r.value.pgRestore, Program("pg_restore"))
      ensures r.Ok? ==> r.value.pgDump in bundle.files && r.value.pgRestore in bundle.files
      // Nothing can have failed on the way to a new install, and without a failure safe names get one.
      ensures r.Ok? && !old(Good(final)) ==>
                && !fails(MakeTempDir) && !fails(WriteMarker) && !fails(Activate)
                && (old(final).Some? ==> !fails(RemoveDirectory) && forall name :: name in old(final).value ==> !fails(RemoveEntryOf(name)))
                && forall name :: name in bundle.files ==>
                     && !fails(ContextAt(name)) && !fails(MakeParent(name)) && !fails(WriteBytes(name)) && !fails(Chmod(name))
                     && (name in signs ==> !fails(SignFile(name)))
      ensures r.Ok? && !old(Good(final)) ==> forall name :: name in bundle.files ==> name != "" && name != "." && !(".." <= name) && !("/" <= name)
      ensures (!cancelled && bundle.available && HasProgram("pg_dump") && HasProgram("pg_restore") && (forall c :: !fails(c))
               && forall name :: name in bundle.files ==> name != "" && name != "." && !(".." <= name) && !("/" <= name))
              ==> r.Ok?
      // What a successful call leaves can be used: the marker of this bundle and its files.
      ensures r.Ok? ==> Serves(final)
    {
      hide ValidInstall, Whole, SignerPreserved, Located, BundleHash, CanInstall, HasProgram, LeadsTo, Serves, Good, Installs, BinaryName, Program, PartOf, HasBinaries, Less, RequiredBinaries;
      ProgramsAreThere();
      NothingIsPartOf(final);
      InstallNeeds(final, fails);
      if cancelled {
        return Err(Cancelled);
      }
      if !bundle.available {
        return Err(NotStaged);
      }
      var hash, fileHashes := ComputeBundleHash(bundle);
      BinariesNamed();
      var dump := RelativePath(bundle.files, BinaryName(bundle.platform, "pg_dump"));
      if dump.None? {
        return Err(NoBinary);
      }
      var restore := RelativePath(bundle.files, BinaryName(bundle.platform, "pg_restore"));
      if restore.None? {
        return Err(NoBinary);
      }
      FoundProgram("pg_dump", dump.value);
      FoundProgram("pg_restore", restore.value);
      var paths := Paths(dump.value, restore.value);
      var want := Marker(SCHEMA_VERSION, bundle.platform, bundle.version, hash, fileHashes, createdAt);
      var valid := Validate(want);
      GoodIsValid(final, want);
      if valid {
        ServesWhenInstalled(final);
        return Ok(paths);
      }
      r := Install(want, paths, fails);
      if r.Ok? {
        ServesWhenInstalled(final);
      }
    }

    /** The file name of a program on the platform of the bundle. */
    ghost function Program(base: string): string {
      if "windows-" <= bundle.platform then base + ".exe" else base
    }

    ghost predicate HasProgram(base: string) {
      exists path :: path in bundle.files && LeadsTo(path, Program(base))
    }

    lemma ProgramsAreThere()
      ensures HasBinaries(bundle) <==> HasProgram("pg_dump") && HasProgram("pg_restore")
    {
      hide Located, LeadsTo;
      BinariesNamed();
      assert '/' !in Program("pg_dump") && '/' !in Program("pg_restore");
      LocatedIsLeast(bundle.files.Keys, Program("pg_dump"));
      LocatedIsLeast(bundle.files.Keys, Program("pg_restore"));
    }

    lemma FoundProgram(base: string, path: string)
      requires '/' !in base && Located(bundle.files.Keys, BinaryName(bundle.platform, base)) == Some(path)
      ensures path in bundle.files && LeadsTo(path, Program(base))
    {
      hide Located, LeadsTo;
      LocatedIsLeast(bundle.files.Keys, Program(base));
    }

    /** A marker with the bundle's schema, platform, version and hash, and every file but one named like
        the marker: with its own bytes, unless the signer changes the files it signs. */
    ghost predicate Serves(d: Option<Dir>) {
      && d.Some? && ".installed" in d.value && d.value[".installed"].Marked?
      && (var m := d.value[".installed"].marker;
          m.schema == 1 && m.platform == bundle.platform && m.version == bundle.version && m.hash == BundleHash(bundle))
      && forall name :: name in bundle.files && name != ".installed" ==>
           name in d.value && d.value[name].Raw? && (name !in signs || preserving ==> d.value[name].bytes == bundle.files[name])
    }

    lemma ServesWhenInstalled(d: Option<Dir>)
      requires Good(d) || Installs(d)
      ensures Serves(d)
    {
      hide Located, BundleHash, RequiredBinaries, SafeFiles;
      if Good(d) {
        var want :| WantedBy(bundle, want) && ValidInstall(d, want);
        ValidHoldsTheBundle(d, bundle, want);
      }
    }

    /** When a cache is left as it is: the marker says schema, platform, version and hash of this bundle,
        and every file has the bundle's own bytes. Nothing else in it matters. */
    lemma GoodIff(d: Option<Dir>)
      requires HasBinaries(bundle)
      ensures Good(d) <==>
                && d.Some? && ".installed" in d.value && d.value[".installed"].Marked?
                && (var m := d.value[".installed"].marker;
                    m.schema == 1 && m.platform == bundle.platform && m.version == bundle.version && m.hash == BundleHash(bundle))
                && forall name :: name in bundle.files ==> name in d.value && d.value[name].Raw? && d.value[name].bytes == bundle.files[name]
    {
      hide Located, BundleHash, RequiredBinaries, SafeFiles;
      var want := Marker(1, bundle.platform, bundle.version, BundleHash(bundle), FileHashes(bundle.files), 0);
      assert WantedBy(bundle, want);
      GoodIsValid(d, want);
      if Good(d) {
        ValidHoldsTheBundle(d, bundle, want);
      } else if d.Some? && bundle.files.Keys <= d.value.Keys {
        BinariesAreThere(d.value, bundle, want);
      }
    }

    /** Every call that replacing the cache takes, spelled out. */
    lemma InstallNeeds(found: Option<Dir>, fails: FileCall -> bool)
      ensures CanInstall(found, fails) <==>
                && (found.Some? ==> !fails(RemoveDirectory) && forall name :: name in found.value ==> !fails(RemoveEntryOf(name)))
                && !fails(MakeTempDir) && !fails(WriteMarker) && !fails(Activate)
                && forall name :: name in bundle.files ==>
                     && name != "" && name != "." && !(".." <= name) && !("/" <= name)
                     && !fails(ContextAt(name)) && !fails(MakeParent(name)) && !fails(WriteBytes(name)) && !fails(Chmod(name))
                     && (name in signs ==> !fails(SignFile(name)))
    {
    }

    lemma BinariesNamed()
      ensures var keys, platform := bundle.files.Keys, bundle.platform;
              HasBinaries(bundle) <==> Located(keys, BinaryName(platform, "pg_dump")).Some? && Located(keys, BinaryName(platform, "pg_restore")).Some?
    {
      hide Located, BinaryName;
      var binaries := RequiredBinaries(bundle.platform);
      assert binaries[0] == BinaryName(bundle.platform, "pg_dump") && binaries[1] == BinaryName(bundle.platform, "pg_restore");
    }

    lemma GoodIsValid(d: Option<Dir>, want: Marker)
      requires WantedBy(bundle, want)
      ensures Good(d) <==> ValidInstall(d, want)
    {
    }

    /** What follows a failed validation: remove, write aside, rename. */
    method Install(want: Marker, paths: Paths, fails: FileCall -> bool) returns (r: Result<Paths, Error>)
      requires WantedBy(bundle, want)
      modifies this`final, this`tmp, this`attempts, this`trail
      ensures r.Ok? <==> CanInstall(old(final), fails)
      ensures r.Ok? ==> r.value == paths && Installs(final)
      ensures r.Err? ==> PartOf(final, old(final)) && !r.error.Cancelled? && !r.error.NotStaged? && !r.error.NoBinary?
      ensures attempts > old(attempts) && |trail| >= |old(trail)| && CrashSafe(old(final), |old(trail)|)
    {
      hide ValidInstall, Whole, SignerPreserved, Payload, WantedBy, PartOf, Removable, FileWorks;
      NothingIsPartOf(final);
      var failed := RemoveFinal(fails);
      if failed {
        return Err(RemoveFailed);
      }
      if fails(MakeTempDir) {
        return Err(MkdirFailed);
      }
      tmp, attempts := Some(map[]), attempts + 1;
      failed := WriteFiles(fails);
      if failed {
        CleanUp();
        return Err(WriteFailed);
      }
      ghost var payload := tmp.value;
      failed := WriteFile(MARKER, Marked(want), fails(WriteMarker));
      if failed {
        CleanUp();
        return Err(MarkerFailed);
      }
      MarkerCompletes(payload, want);
      failed := Rename(fails(Activate));
      if failed {
        // A competitor may have been faster; without one finalDir is gone and this finds nothing.
        NothingIsInvalid(want);
        var valid := Validate(want);
        CleanUp();
        return if valid then Ok(paths) else Err(ActivateFailed);
      }
      return Ok(paths);
    }

    lemma NothingIsPartOf(d: Option<Dir>)
      ensures PartOf(None, d) && PartOf(d, d)
    {
    }

    lemma NothingIsInvalid(want: Marker)
      ensures !ValidInstall(None, want)
    {
    }

    lemma MarkerCompletes(payload: Dir, want: Marker)
      requires WantedBy(bundle, want) && Payload(payload, bundle, signs, preserving) && SafeNames()
      ensures Installs(Some(payload[MARKER := Marked(want)]))
    {
    }

    /** A file of the bundle is named like the marker, or the signer may change the bytes of one. */
    ghost predicate Rebuilds() {
      MARKER in bundle.files || (!preserving && signs * bundle.files.Keys != {})
    }

    /** The call after a successful one makes no change to the file system exactly when the signer
        kept the bytes it signed and no bundle file is named like the marker; otherwise every call
        throws the install away and builds it again. */
    method EnsureTwice(createdAt: int, later: int, fails: FileCall -> bool, failsLater: FileCall -> bool)
      returns (first: Result<Paths, Error>, installed: Option<Dir>, between: nat, second: Result<Paths, Error>, changed: bool)
      modifies this`final, this`tmp, this`attempts, this`trail
      // The cache between the two calls, and whether the second one touches the file system.
      ensures first.Ok? ==> if old(Good(final)) then installed == old(final) && between == old(attempts) else Installs(installed) && between > old(attempts)
      ensures first.Err? ==> PartOf(installed, old(final))
      ensures changed <==> attempts > between
      ensures !changed ==> final == installed
      ensures first.Ok? ==> installed.Some? && (changed <==> !SignerPreserved(installed.value, bundle, signs) || MARKER in bundle.files)
      ensures first.Ok? && !changed ==> second == first && final == installed
      // Whether any call can come to that is plain from the bundle, the signer and what was found.
      ensures first.Ok? && changed ==> !old(Good(final)) && Rebuilds() && (second.Ok? <==> CanInstall(installed, failsLater))
    {
      hide Installs, Good, SignerPreserved, Located, PartOf, Ready, CanInstall;
      first := Ensure(false, createdAt, fails);
      installed := final;
      between := attempts;
      if first.Ok? {
        InstalledIsGood(installed);
      }
      second := Ensure(false, later, failsLater);
      changed := attempts != between;
    }

    lemma InstalledIsGood(d: Option<Dir>)
      requires Ready() && (Installs(d) || Good(d))
      ensures d.Some? && (Good(d) <==> SignerPreserved(d.value, bundle, signs) && MARKER !in bundle.files)
      ensures Installs(d) && !Rebuilds() ==> Good(d)
    {
      hide ValidInstall, Whole, Located, WantedBy;
      if Installs(d) {
        InstallsFacts(d);
        var want := d.value[MARKER].marker;
        WholeIsValid(d.value, bundle, signs, preserving, want);
        GoodIsValid(d, want);
      } else {
        var want :| WantedBy(bundle, want) && ValidInstall(d, want);
        GoodIsTheBundle(d, want);
      }
    }

    lemma InstallsFacts(d: Option<Dir>)
      requires Installs(d)
      ensures MARKER in d.value && d.value[MARKER].Marked? && WantedBy(bundle, d.value[MARKER].marker)
      ensures !Rebuilds() ==> SignerPreserved(d.value, bundle, signs)
    {
    }

    lemma GoodIsTheBundle(d: Option<Dir>, want: Marker)
      requires WantedBy(bundle, want) && ValidInstall(d, want)
      ensures SignerPreserved(d.value, bundle, signs) && MARKER !in bundle.files && d.Some?
    {
      hide Located, BundleHash;
      ValidHoldsTheBundle(d, bundle, want);
    }
  }
}
