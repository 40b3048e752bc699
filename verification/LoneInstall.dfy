/** One call of Ensure without competitors is a run of the install machine with one process
    (pgtools/extract.go): every outcome the call allows, and every state of the cache on the way
    where a crash can leave it, is reached by some run. */
module LoneInstall {
  import opened Models
  import opened Bundles
  import opened InstallCache
  import opened InstallRace

  /** What stays the same during the call. */
  datatype Setting = Setting(bundle: Bundle, signs: set<string>, preserving: bool, want: Marker, found: Option<Dir>)

  ghost predicate Proper(g: Setting) {
    WantedBy(g.bundle, g.want) && HasBinaries(g.bundle)
  }

  function Alone(g: Setting, process: Process, final: Option<Dir>, source: Option<Dir>, removals: nat): Race {
    Race(g.bundle, g.signs, g.preserving, [g.want], [process], g.found, final, source, removals)
  }

  /** The process can be here with this cache. */
  ghost predicate Reaches(g: Setting, process: Process, final: Option<Dir>) {
    exists source, removals: nat :: Reachable(Alone(g, Idle, g.found, g.found, 0), Alone(g, process, final, source, removals))
  }

  lemma Begins(g: Setting)
    ensures Reaches(g, Idle, g.found)
  {
    var s := Alone(g, Idle, g.found, g.found, 0);
    assert Exec(s, []) == Some(s);
    assert Reachable(s, s);
  }

  /** A step that leaves the cache alone. */
  lemma Moves(g: Setting, process: Process, final: Option<Dir>, step: Step, next: Process)
    requires Proper(g) && Reaches(g, process, final) && !Touches(step)
    requires var s := Alone(g, process, final, None, 0); StepEnabled(s, process, step) && Local(s, process, g.want, step) == next
    ensures Reaches(g, next, final)
  {
    hide StepEnabled, Local, Reachable, WantedBy, HasBinaries;
    var start := Alone(g, Idle, g.found, g.found, 0);
    var source, removals: nat :| Reachable(start, Alone(g, process, final, source, removals));
    var s := Alone(g, process, final, source, removals);
    AnySource(g, process, final, step, source, removals);
    ReachableNext(start, s, Action(0, step));
    assert Next(s, Action(0, step)).processes == [next];
    assert Next(s, Action(0, step)) == Alone(g, next, final, source, removals);
  }

  /** Enabledness and effect of such a step do not depend on where the cache came from. */
  lemma AnySource(g: Setting, process: Process, final: Option<Dir>, step: Step, source: Option<Dir>, removals: nat)
    requires !Touches(step)
    ensures var s, t := Alone(g, process, final, None, 0), Alone(g, process, final, source, removals);
      && (StepEnabled(s, process, step) <==> StepEnabled(t, process, step))
      && (StepEnabled(s, process, step) ==> Local(s, process, g.want, step) == Local(t, process, g.want, step))
  {
  }

  lemma Removes(g: Setting, d: Dir, name: string)
    requires Proper(g) && Reaches(g, Removing, Some(d)) && name in d
    ensures Reaches(g, Removing, Some(d - {name}))
  {
    hide Reachable, WantedBy, HasBinaries;
    var start := Alone(g, Idle, g.found, g.found, 0);
    var source, removals: nat :| Reachable(start, Alone(g, Removing, Some(d), source, removals));
    var s := Alone(g, Removing, Some(d), source, removals);
    ReachableNext(start, s, Action(0, RemoveEntry(name)));
    assert DisturbAll([Removing])[0 := Removing] == [Removing];
    assert Next(s, Action(0, RemoveEntry(name))) == Alone(g, Removing, Some(d - {name}), source, removals + 1);
  }

  /** An empty directory goes last. */
  lemma RemovesDir(g: Setting)
    requires Proper(g) && Reaches(g, Removing, Some(map[]))
    ensures Reaches(g, Making, None)
  {
    hide Reachable, WantedBy, HasBinaries;
    var start := Alone(g, Idle, g.found, g.found, 0);
    var source, removals: nat :| Reachable(start, Alone(g, Removing, Some(map[]), source, removals));
    var s := Alone(g, Removing, Some(map[]), source, removals);
    ReachableNext(start, s, Action(0, RemoveDir));
    assert DisturbAll([Removing])[0 := Making] == [Making];
    assert Next(s, Action(0, RemoveDir)) == Alone(g, Making, None, source, removals + 1);
  }

  lemma Renames(g: Setting, tmp: Dir)
    requires Proper(g) && Reaches(g, Renaming(tmp), None)
    ensures Reaches(g, Returned(true), Some(tmp))
  {
    hide Reachable, WantedBy, HasBinaries;
    var start := Alone(g, Idle, g.found, g.found, 0);
    var source, removals: nat :| Reachable(start, Alone(g, Renaming(tmp), None, source, removals));
    var s := Alone(g, Renaming(tmp), None, source, removals);
    ReachableNext(start, s, Action(0, Rename));
    assert DisturbAll([Renaming(tmp)])[0 := Returned(true)] == [Returned(true)];
    assert Next(s, Action(0, Rename)) == Alone(g, Returned(true), Some(tmp), Some(tmp), 0);
  }

  // ---------- validation ----------

  /** The call has come to this check over this cache with every earlier one passed. */
  ghost predicate Checked(g: Setting, final: Option<Dir>, look: Look) {
    Reaches(g, Looking(look, false, true), final) && Seen(final, g.want, look)
  }

  /** One check: on, or off to removing. */
  lemma OneCheck(g: Setting, final: Option<Dir>, look: Look, name: string)
    requires Proper(g) && Checked(g, final, look) && (look.AtFiles? ==> name in look.left)
    ensures if CheckHolds(final, g.want, look, name) then Checked(g, final, AfterCheck(g.want, look, name)) else Reaches(g, Removing, final)
  {
    hide CheckHolds, AfterCheck, Reaches, Proper;
    if CheckHolds(final, g.want, look, name) {
      CheckKeepsSeen(final, g.want, look, name);
      Moves(g, Looking(look, false, true), final, Check(name), Looking(AfterCheck(g.want, look, name), false, true));
    } else {
      Moves(g, Looking(look, false, true), final, Check(name), Removing);
    }
  }

  /** The files, in some order: either a check fails or all pass. */
  lemma {:induction false} FileChecks(g: Setting, final: Option<Dir>, left: set<string>)
    requires Proper(g) && Checked(g, final, AtFiles(left)) && left <= g.want.files.Keys
    ensures Checked(g, final, AtFiles({})) || (Reaches(g, Removing, final) && !ValidInstall(final, g.want))
    decreases left
  {
    hide CheckHolds, Reaches, Proper, Seen, ValidInstall;
    if left != {} {
      var name :| name in left;
      OneCheck(g, final, AtFiles(left), name);
      if CheckHolds(final, g.want, AtFiles(left), name) {
        FileChecks(g, final, left - {name});
      } else {
        FailedCheck(g, final, AtFiles(left), name);
      }
    }
  }

  lemma FailedCheck(g: Setting, final: Option<Dir>, look: Look, name: string)
    requires Proper(g) && !CheckHolds(final, g.want, look, name)
    requires (look.AtFiles? ==> name in g.want.files) && (look.AtBinary? ==> look.i < |RequiredBinaries(g.want.platform)|)
    ensures !ValidInstall(final, g.want)
  {
    hide CheckHolds, ValidInstall;
    if ValidInstall(final, g.want) {
      ValidCheckHolds(final, g.want, look, name);
    }
  }

  /** A validation that begins comes to all checks passed over a valid cache, and fails one over any other. */
  lemma Looks(g: Setting, final: Option<Dir>)
    requires Proper(g) && Reaches(g, Looking(AtMarker, false, true), final)
    ensures if ValidInstall(final, g.want) then Checked(g, final, AtFiles({})) else Reaches(g, Removing, final)
  {
    hide CheckHolds, Reaches, Proper, Seen, ValidInstall;
    StartsLooking(final, g.want);
    MarkerAndBinaries(g, final);
    if Checked(g, final, AtFiles(g.want.files.Keys)) {
      FileChecks(g, final, g.want.files.Keys);
    }
    if Checked(g, final, AtFiles({})) {
      AllSeenIsValid(final, g.want);
    }
  }

  lemma Validates(g: Setting)
    requires Proper(g)
    ensures if ValidInstall(g.found, g.want) then Reaches(g, Returned(true), g.found) else Reaches(g, Removing, g.found)
  {
    hide Reaches, Proper, Seen, ValidInstall;
    Begins(g);
    Moves(g, Idle, g.found, Call, Looking(AtMarker, false, true));
    Looks(g, g.found);
    if ValidInstall(g.found, g.want) {
      Moves(g, Looking(AtFiles({}), false, true), g.found, Pass, Returned(true));
    }
  }

  lemma MarkerAndBinaries(g: Setting, final: Option<Dir>)
    requires Proper(g) && Checked(g, final, AtMarker)
    ensures Checked(g, final, AtFiles(g.want.files.Keys)) || (Reaches(g, Removing, final) && !ValidInstall(final, g.want))
  {
    hide CheckHolds, Reaches, Proper, Seen, ValidInstall, BinaryName;
    OneCheck(g, final, AtMarker, "");
    if !CheckHolds(final, g.want, AtMarker, "") {
      FailedCheck(g, final, AtMarker, "");
    } else {
      OneCheck(g, final, AtBinary(0), "");
      if !CheckHolds(final, g.want, AtBinary(0), "") {
        FailedCheck(g, final, AtBinary(0), "");
      } else {
        OneCheck(g, final, AtBinary(1), "");
        if !CheckHolds(final, g.want, AtBinary(1), "") {
          FailedCheck(g, final, AtBinary(1), "");
        }
      }
    }
  }

  // ---------- removal ----------

  /** Removing can leave any part of what is there. */
  lemma {:induction false} RemovesDownTo(g: Setting, d: Dir, part: Dir)
    requires Proper(g) && Reaches(g, Removing, Some(d)) && PartOf(Some(part), Some(d))
    ensures Reaches(g, Removing, Some(part))
    decreases d.Keys
  {
    hide Reaches, Proper;
    if d.Keys == part.Keys {
      assert d == part;
    } else {
      var name :| name in d.Keys && name !in part.Keys;
      Removes(g, d, name);
      assert (d - {name}).Keys == d.Keys - {name};
      RemovesDownTo(g, d - {name}, part);
    }
  }

  lemma RemovesAll(g: Setting)
    requires Proper(g) && Reaches(g, Removing, g.found)
    ensures Reaches(g, Making, None)
  {
    hide Reaches, Proper;
    if g.found.Some? {
      RemovesDownTo(g, g.found.value, map[]);
      RemovesDir(g);
    } else {
      Moves(g, Removing, None, RemoveNothing, Making);
    }
  }

  /** Every failure the call allows. */
  lemma Fails(g: Setting, final: Option<Dir>)
    requires Proper(g) && Reaches(g, Removing, g.found) && PartOf(final, g.found)
    ensures Reaches(g, Returned(false), final)
  {
    hide Reaches, Proper;
    if final.Some? {
      RemovesDownTo(g, g.found.value, final.value);
      Moves(g, Removing, final, RemoveFails, Returned(false));
    } else {
      RemovesAll(g);
      Moves(g, Making, None, MakeTemp(false), Returned(false));
    }
  }

  // ---------- writing ----------

  /** What the files hold once they are written: the marker's name is overwritten later. */
  function Written(g: Setting, whole: Dir, name: string): Content {
    if name in whole && name != MARKER then whole[name] else if name in g.bundle.files then Raw(g.bundle.files[name]) else Raw("")
  }

  function WrittenDir(g: Setting, whole: Dir, names: seq<string>): Dir {
    map name | name in names :: Written(g, whole, name)
  }

  lemma WritesOne(g: Setting, whole: Dir, names: seq<string>, k: nat)
    requires Proper(g) && Whole(whole, g.bundle, g.signs, g.preserving) && names == SortedKeys(g.bundle.files.Keys) && k < |names|
    requires SafeFiles(g.bundle)
    requires Reaches(g, Writing(WrittenDir(g, whole, names[..k]), names[k..], false), None)
    ensures Reaches(g, Writing(WrittenDir(g, whole, names[..k + 1]), names[k + 1..], false), None)
  {
    hide Reaches, Proper, SortedKeys, Whole, Installed, Written, WrittenDir;
    assert names[k] in names;
    var c := Written(g, whole, names[k]);
    MayBeWritten(g, whole, names[k]);
    assert Safe(names[k]);
    OneMoreWritten(g, whole, names, k);
    assert names[k..][0] == names[k] && names[k..][1..] == names[k + 1..];
    Moves(g, Writing(WrittenDir(g, whole, names[..k]), names[k..], false), None, WriteFile(c.bytes, false),
          Writing(WrittenDir(g, whole, names[..k + 1]), names[k + 1..], false));
  }

  lemma MayBeWritten(g: Setting, whole: Dir, name: string)
    requires Whole(whole, g.bundle, g.signs, g.preserving) && name in g.bundle.files
    ensures Written(g, whole, name).Raw? && Installed(g.bundle, g.signs, g.preserving, name, Written(g, whole, name))
  {
  }

  lemma OneMoreWritten(g: Setting, whole: Dir, names: seq<string>, k: nat)
    requires k < |names|
    ensures WrittenDir(g, whole, names[..k + 1]) == WrittenDir(g, whole, names[..k])[names[k] := Written(g, whole, names[k])]
  {
    hide Written;
    assert names[..k + 1] == names[..k] + [names[k]];
  }

  lemma {:induction false} WritesAll(g: Setting, whole: Dir, names: seq<string>, k: nat)
    requires Proper(g) && Whole(whole, g.bundle, g.signs, g.preserving) && names == SortedKeys(g.bundle.files.Keys) && k <= |names|
    requires SafeFiles(g.bundle)
    requires Reaches(g, Writing(map[], names, false), None)
    ensures Reaches(g, Writing(WrittenDir(g, whole, names[..k]), names[k..], false), None)
  {
    hide Reaches, Proper, Whole, SortedKeys;
    if k == 0 {
      assert names[..0] == [] && names[0..] == names && WrittenDir(g, whole, []) == map[];
    } else {
      WritesAll(g, whole, names, k - 1);
      WritesOne(g, whole, names, k - 1);
    }
  }

  /** Every install the call can succeed with. */
  lemma Succeeds(g: Setting, whole: Dir)
    requires Proper(g) && Reaches(g, Removing, g.found)
    requires Whole(whole, g.bundle, g.signs, g.preserving) && whole[MARKER] == Marked(g.want) && SafeFiles(g.bundle)
    ensures Reaches(g, Returned(true), Some(whole))
  {
    hide Reaches, Proper, SortedKeys, Whole, WantedBy;
    RemovesAll(g);
    var names := SortedKeys(g.bundle.files.Keys);
    Moves(g, Making, None, MakeTemp(true), Writing(map[], names, false));
    WritesAll(g, whole, names, |names|);
    assert names[..|names|] == names && names[|names|..] == [];
    var tmp := WrittenDir(g, whole, names);
    Moves(g, Writing(tmp, [], false), None, WritesEnd, WritingMarker(tmp));
    MarkerOnTop(g, whole, names);
    Moves(g, WritingMarker(tmp), None, MarkerWritten, Renaming(whole));
    Renames(g, whole);
  }

  lemma MarkerOnTop(g: Setting, whole: Dir, names: seq<string>)
    requires Whole(whole, g.bundle, g.signs, g.preserving) && whole[MARKER] == Marked(g.want)
    requires forall name :: name in names <==> name in g.bundle.files
    ensures WrittenDir(g, whole, names)[MARKER := Marked(g.want)] == whole
  {
    hide WantedBy, Installed;
  }

  // ---------- the call ----------

  /** Some run of the machine with one process ends like this, for a marker of this bundle. */
  ghost predicate IsRun(b: Bundle, signs: set<string>, preserving: bool, found: Option<Dir>, ok: bool, final: Option<Dir>) {
    exists want :: EndsRun(Setting(b, signs, preserving, want, found), ok, final)
  }

  ghost predicate EndsRun(g: Setting, ok: bool, final: Option<Dir>) {
    Proper(g) && Reaches(g, Returned(ok), final)
  }

  ghost predicate LeftByRun(b: Bundle, signs: set<string>, preserving: bool, found: Option<Dir>, final: Option<Dir>) {
    exists ok :: IsRun(b, signs, preserving, found, ok, final)
  }

  /** What Ensure's contract allows of a call that goes ahead. */
  ghost predicate Allowed(e: Extractor, found: Option<Dir>, ok: bool, final: Option<Dir>) {
    if e.Good(found) then ok && final == found
    else if ok then e.Installs(final)
    else PartOf(final, found)
  }

  /** Everything the contract allows is a run. */
  lemma AllowedIsRun(e: Extractor, want: Marker, found: Option<Dir>, ok: bool, final: Option<Dir>)
    requires HasBinaries(e.bundle) && WantedBy(e.bundle, want) && Allowed(e, found, ok, final)
    ensures IsRun(e.bundle, e.signs, e.preserving, found, ok, final)
  {
    hide Reaches, WantedBy, HasBinaries, ValidInstall, Whole, PartOf;
    var marker := if ok && !e.Good(found) then InstalledMarker(e, final.value) else want;
    var g := Setting(e.bundle, e.signs, e.preserving, marker, found);
    if ok && !e.Good(found) {
      MarkerOfInstall(e, final.value);
    }
    e.GoodIsValid(found, marker);
    Validates(g);
    if !e.Good(found) {
      if ok {
        Succeeds(g, final.value);
      } else {
        Fails(g, final);
      }
    }
    assert EndsRun(g, ok, final);
  }

  function InstalledMarker(e: Extractor, d: Dir): Marker {
    if MARKER in d && d[MARKER].Marked? then d[MARKER].marker else Marker(0, "", "", Digest(""), map[], 0)
  }

  lemma MarkerOfInstall(e: Extractor, d: Dir)
    requires Whole(d, e.bundle, e.signs, e.preserving)
    ensures WantedBy(e.bundle, InstalledMarker(e, d)) && MARKER in d && d[MARKER] == Marked(InstalledMarker(e, d))
  {
  }

  /** One call of Ensure refines the machine: its outcome is a run's, and wherever a crash in the
      middle can leave the cache some run leaves it too. */
  method EnsureAsRun(e: Extractor, createdAt: int, fails: FileCall -> bool) returns (r: Result<Paths, Error>)
    requires e.Ready()
    modifies e`final, e`tmp, e`attempts, e`trail
    ensures IsRun(e.bundle, e.signs, e.preserving, old(e.final), r.Ok?, e.final)
    ensures old(|e.trail|) <= |e.trail|
    ensures forall i :: old(|e.trail|) <= i < |e.trail| ==> LeftByRun(e.bundle, e.signs, e.preserving, old(e.final), e.trail[i])
  {
    hide IsRun, WantedBy, HasBinaries, PartOf, Extractor.Installs, Extractor.Good;
    ghost var found := e.final;
    ghost var want := AMarker(e.bundle, createdAt);
    r := e.Ensure(false, createdAt, fails);
    AllowedIsRun(e, want, found, r.Ok?, e.final);
    forall i | old(|e.trail|) <= i < |e.trail| ensures LeftByRun(e.bundle, e.signs, e.preserving, found, e.trail[i]) {
      AllowedIsRun(e, want, found, !PartOf(e.trail[i], found), e.trail[i]);
    }
  }

  ghost function AMarker(b: Bundle, createdAt: int): (want: Marker)
    ensures WantedBy(b, want)
  {
    Marker(SCHEMA_VERSION, b.platform, b.version, BundleHash(b), FileHashes(b.files), createdAt)
  }

  // ---------- which calls come to a cache that is built again ----------

  /** Some call that starts from `found` succeeds with a cache the next call does not accept. */
  ghost predicate ComesToRebuild(e: Extractor, found: Option<Dir>) {
    exists d :: IsRun(e.bundle, e.signs, e.preserving, found, true, d) && Allowed(e, found, true, d) && !e.Good(d)
  }

  /** A pair of calls can change the cache twice exactly when it was not valid before, the bundle can be
      written at all, and it has a file named like the marker or the signer may change a file it signs. */
  lemma RebuildsIff(e: Extractor, want: Marker, found: Option<Dir>)
    requires HasBinaries(e.bundle) && WantedBy(e.bundle, want) && e.bundle.available
    ensures ComesToRebuild(e, found) <==> !e.Good(found) && e.SafeNames() && e.Rebuilds()
  {
    hide IsRun, WantedBy, HasBinaries, Whole, ValidInstall;
    if ComesToRebuild(e, found) {
      var d :| IsRun(e.bundle, e.signs, e.preserving, found, true, d) && Allowed(e, found, true, d) && !e.Good(d);
      e.InstalledIsGood(d);
    }
    if !e.Good(found) && e.SafeNames() && e.Rebuilds() {
      var d := Some(Rewritten(e.bundle, e.signs, e.preserving, want));
      RewrittenIsInstall(e, want);
      e.InstalledIsGood(d);
      assert Allowed(e, found, true, d);
      AllowedIsRun(e, want, found, true, d);
    }
  }

  /** An install in which the signer has changed every file it may change. */
  function Rewritten(b: Bundle, signs: set<string>, preserving: bool, want: Marker): Dir {
    (map name | name in b.files :: if name in signs && !preserving then Raw(b.files[name] + "x") else Raw(b.files[name]))[MARKER := Marked(want)]
  }

  lemma RewrittenIsInstall(e: Extractor, want: Marker)
    requires WantedBy(e.bundle, want)
    ensures var d := Rewritten(e.bundle, e.signs, e.preserving, want);
      && Whole(d, e.bundle, e.signs, e.preserving)
      && (e.Rebuilds() ==> !(SignerPreserved(d, e.bundle, e.signs) && MARKER !in e.bundle.files))
  {
    hide WantedBy;
    var d := Rewritten(e.bundle, e.signs, e.preserving, want);
    if !e.preserving && e.signs * e.bundle.files.Keys != {} {
      var name :| name in e.signs * e.bundle.files.Keys;
      assert name != MARKER ==> d[name] == Raw(e.bundle.files[name] + "x") && |e.bundle.files[name] + "x"| != |e.bundle.files[name]|;
    }
  }
}
