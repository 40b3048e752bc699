/** Any number of processes calling Ensure on one cache directory, each of which may crash at any
    point (pgtools/extract.go). Every file system call is one step of a state machine; a run is any
    sequence of enabled steps. Temporary directories have names of their own, so nobody else sees them. */
module InstallRace {
  import Strings
  import opened Models
  import opened Bundles
  import opened InstallCache

  /** The next check of a validation. */
  datatype Look = AtMarker | AtBinary(i: nat) | AtFiles(left: set<string>)

  datatype Process =
    | Idle
    /** Validating, at first or again after a failed rename; calm while finalDir has not changed since the first check. */
    | Looking(look: Look, again: bool, calm: bool)
    | Removing
    | Making
    | Writing(tmp: Dir, left: seq<string>, failed: bool)
    | WritingMarker(tmp: Dir)
    | Renaming(tmp: Dir)
    | Returned(ok: bool)
    | Crashed

  datatype Race = Race(
    bundle: Bundle,
    signs: set<string>,
    preserving: bool,
    wants: seq<Marker>,        // one marker per process: only their times differ
    processes: seq<Process>,
    initial: Option<Dir>,      // finalDir as it was found
    final: Option<Dir>,
    source: Option<Dir>,       // what finalDir was when it was last created whole
    removals: nat)             // entries and directories removed since then

  datatype Step =
    | Call
    | Check(name: string)
    | Pass
    | RemoveEntry(name: string)
    | RemoveDir
    | RemoveNothing
    | RemoveFails
    | MakeTemp(ok: bool)
    | WritePart(bytes: string)
    | WriteFile(bytes: string, failed: bool)
    | WriteFails
    | WritesEnd
    | MarkerPart(c: Content)
    | MarkerWritten
    | MarkerFails
    | Rename
    | RenameFails
    | Crash

  /** One step of one process. */
  datatype Action = Action(p: nat, step: Step)

  ghost predicate Sized(s: Race) {
    && |s.processes| == |s.wants|
    && (forall p :: 0 <= p < |s.wants| ==> WantedBy(s.bundle, s.wants[p]))
    && HasBinaries(s.bundle)
  }

  function Start(bundle: Bundle, signs: set<string>, preserving: bool, wants: seq<Marker>, found: Option<Dir>): Race {
    Race(bundle, signs, preserving, wants, seq(|wants|, _ => Idle), found, found, found, 0)
  }

  predicate MayHold(s: Race, name: string, c: Content) {
    Installed(s.bundle, s.signs, s.preserving, name, c)
  }

  /** What the next check finds in finalDir now. */
  ghost predicate CheckHolds(final: Option<Dir>, want: Marker, look: Look, name: string) {
    match look
    case AtMarker => final.Some? && MARKER in final.value && MarkerMatches(final.value[MARKER], want)
    case AtBinary(i) => final.Some? && i < |RequiredBinaries(want.platform)| && HasBinary(final.value, want, RequiredBinaries(want.platform)[i])
    case AtFiles(left) => final.Some? && name in want.files && name in final.value && Holds(final.value[name], want.files[name])
  }

  function AfterCheck(want: Marker, look: Look, name: string): Look {
    match look
    case AtMarker => AtBinary(0)
    case AtBinary(i) => if i + 1 < |RequiredBinaries(want.platform)| then AtBinary(i + 1) else AtFiles(want.files.Keys)
    case AtFiles(left) => AtFiles(left - {name})
  }

  ghost predicate Enabled(s: Race, a: Action) {
    Sized(s) && a.p < |s.processes| && StepEnabled(s, s.processes[a.p], a.step)
  }

  ghost predicate StepEnabled(s: Race, process: Process, step: Step) {
    match step
    case Call => process.Idle? || process.Returned?
    case Check(name) => process.Looking? && (process.look.AtFiles? ==> name in process.look.left)
    case Pass => process.Looking? && process.look == AtFiles({})
    case RemoveEntry(name) => process.Removing? && s.final.Some? && name in s.final.value
    case RemoveDir => process.Removing? && s.final == Some(map[])
    case RemoveNothing => process.Removing? && s.final == None
    case RemoveFails => process.Removing?
    case MakeTemp(ok) => process.Making?
    case WritePart(bytes) => process.Writing? && process.left != [] && Safe(process.left[0])
    case WriteFile(bytes, failed) => process.Writing? && process.left != [] && Safe(process.left[0]) && MayHold(s, process.left[0], Raw(bytes))
    case WriteFails => process.Writing?
    case WritesEnd => process.Writing? && process.left == []
    case MarkerPart(c) => process.WritingMarker?
    case MarkerWritten => process.WritingMarker?
    case MarkerFails => process.WritingMarker?
    case Rename => process.Renaming? && (s.final == None || s.final == Some(map[]))
    case RenameFails => process.Renaming?
    case Crash => !process.Crashed?
  }

  function Disturb(process: Process): Process {
    if process.Looking? then process.(calm := false) else process
  }

  function DisturbAll(processes: seq<Process>): seq<Process> {
    seq(|processes|, i requires 0 <= i < |processes| => Disturb(processes[i]))
  }

  /** A change of finalDir disturbs every validation under way. */
  function Change(s: Race, p: nat, process: Process, final: Option<Dir>, source: Option<Dir>, removals: nat): Race
    requires p < |s.processes|
  {
    s.(processes := DisturbAll(s.processes)[p := process], final := final, source := source, removals := removals)
  }

  function Move(s: Race, p: nat, process: Process): Race
    requires p < |s.processes|
  {
    s.(processes := s.processes[p := process])
  }

  /** Steps that touch finalDir; all others concern their own process alone. */
  predicate Touches(step: Step) {
    step.RemoveEntry? || step.RemoveDir? || step.Rename?
  }

  ghost function Local(s: Race, process: Process, want: Marker, step: Step): Process
    requires StepEnabled(s, process, step) && !Touches(step)
  {
    match step
    case Call => Looking(AtMarker, false, true)
    case Check(name) =>
      if CheckHolds(s.final, want, process.look, name) then
        process.(look := AfterCheck(want, process.look, name), calm := process.calm || process.look.AtMarker?)
      else if process.again then Returned(false) else Removing
    case Pass => Returned(true)
    case RemoveNothing => Making
    case RemoveFails => Returned(false)
    case MakeTemp(ok) => if ok then Writing(map[], SortedKeys(s.bundle.files.Keys), false) else Returned(false)
    case WritePart(bytes) => process.(tmp := process.tmp[process.left[0] := Raw(bytes)])
    case WriteFile(bytes, failed) => Writing(process.tmp[process.left[0] := Raw(bytes)], process.left[1..], process.failed || failed)
    case WriteFails => Returned(false)
    case WritesEnd => if process.failed then Returned(false) else WritingMarker(process.tmp)
    case MarkerPart(c) => WritingMarker(process.tmp[MARKER := c])
    case MarkerWritten => Renaming(process.tmp[MARKER := Marked(want)])
    case MarkerFails => Returned(false)
    case RenameFails => Looking(AtMarker, true, true)
    case Crash => Crashed
  }

  ghost function Next(s: Race, a: Action): Race
    requires Enabled(s, a)
  {
    var process := s.processes[a.p];
    match a.step
    case RemoveEntry(name) => Change(s, a.p, process, Some(s.final.value - {name}), s.source, s.removals + 1)
    case RemoveDir => Change(s, a.p, Making, None, s.source, s.removals + 1)
    case Rename => Change(s, a.p, Returned(true), Some(process.tmp), Some(process.tmp), 0)
    case _ => Move(s, a.p, Local(s, process, s.wants[a.p], a.step))
  }

  // ---------- what every step keeps ----------

  ghost predicate WholeFor(s: Race, d: Dir) {
    Whole(d, s.bundle, s.signs, s.preserving)
  }

  /** What a validation has seen so far, about a directory that has not changed since. */
  ghost predicate Seen(final: Option<Dir>, want: Marker, look: Look) {
    && (!look.AtMarker? ==> CheckHolds(final, want, AtMarker, ""))
    && (look.AtBinary? ==> forall i :: 0 <= i < look.i < |RequiredBinaries(want.platform)| ==> CheckHolds(final, want, AtBinary(i), ""))
    && (look.AtFiles? ==>
          && (forall i :: 0 <= i < |RequiredBinaries(want.platform)| ==> CheckHolds(final, want, AtBinary(i), ""))
          && forall name :: name in want.files && name !in look.left ==> CheckHolds(final, want, AtFiles({}), name))
  }

  /** A temporary directory on its way: the names left are the end of the list, the others are written. */
  ghost predicate Underway(s: Race, tmp: Dir, left: seq<string>) {
    var names := SortedKeys(s.bundle.files.Keys);
    && |left| <= |names| && left == names[|names| - |left|..]
    && tmp.Keys <= s.bundle.files.Keys
    && forall i :: 0 <= i < |names| - |left| ==> names[i] in tmp && MayHold(s, names[i], tmp[names[i]])
  }

  ghost predicate Filled(s: Race, tmp: Dir) {
    && s.bundle.files.Keys <= tmp.Keys + {MARKER} && tmp.Keys <= s.bundle.files.Keys + {MARKER}
    && forall name :: name in s.bundle.files && name != MARKER ==> MayHold(s, name, tmp[name])
  }

  /** Checks are only made of executables and files there are. */
  predicate LookFits(look: Look, want: Marker) {
    match look
    case AtMarker => true
    case AtBinary(i) => i < |RequiredBinaries(want.platform)|
    case AtFiles(left) => left <= want.files.Keys
  }

  ghost predicate ProcessInv(s: Race, process: Process, want: Marker) {
    match process
    case Looking(look, _, calm) => LookFits(look, want) && (calm ==> Seen(s.final, want, look))
    case Writing(tmp, left, _) => Underway(s, tmp, left)
    case WritingMarker(tmp) => Filled(s, tmp)
    case Renaming(tmp) => WholeFor(s, tmp)
    case _ => true
  }

  /** finalDir is what was found or a whole install, minus what removals have taken out since. */
  ghost predicate FinalInv(s: Race) {
    && PartOf(s.final, s.source)
    && (s.removals == 0 ==> s.final == s.source)
    && (s.source == s.initial || (s.source.Some? && WholeFor(s, s.source.value)))
  }

  ghost predicate Inv(s: Race) {
    && Sized(s) && FinalInv(s)
    && forall p :: 0 <= p < |s.processes| ==> ProcessInv(s, s.processes[p], s.wants[p])
  }

  lemma InvStart(bundle: Bundle, signs: set<string>, preserving: bool, wants: seq<Marker>, found: Option<Dir>)
    requires HasBinaries(bundle) && forall p :: 0 <= p < |wants| ==> WantedBy(bundle, wants[p])
    ensures Inv(Start(bundle, signs, preserving, wants, found))
  {
  }

  /** The part of the state the directories' predicates look at. */
  predicate SameBundle(s: Race, t: Race) {
    t.bundle == s.bundle && t.signs == s.signs && t.preserving == s.preserving && t.wants == s.wants && t.initial == s.initial
  }

  lemma SameWhole(s: Race, t: Race, d: Dir)
    requires SameBundle(s, t)
    ensures WholeFor(s, d) <==> WholeFor(t, d)
  {
    hide WantedBy;
    assert forall name, c :: MayHold(s, name, c) <==> MayHold(t, name, c);
  }

  lemma SameProcessInv(s: Race, t: Race, process: Process, want: Marker)
    requires SameBundle(s, t) && ProcessInv(s, process, want)
    requires t.final == s.final || !process.Looking? || !process.calm
    ensures ProcessInv(t, process, want)
  {
    hide Seen, WantedBy, SortedKeys;
    assert forall name, c :: MayHold(s, name, c) <==> MayHold(t, name, c);
  }

  /** A step that leaves finalDir alone. */
  lemma MoveKeeps(s: Race, p: nat, process: Process)
    requires Inv(s) && p < |s.processes| && ProcessInv(s, process, s.wants[p])
    ensures Inv(Move(s, p, process))
  {
    hide ProcessInv, WholeFor, WantedBy, PartOf, HasBinaries;
    var t := Move(s, p, process);
    forall q | 0 <= q < |t.processes| ensures ProcessInv(t, t.processes[q], t.wants[q]) {
      SameProcessInv(s, t, t.processes[q], t.wants[q]);
    }
    if s.source.Some? {
      SameWhole(s, t, s.source.value);
    }
  }

  /** A step that changes finalDir. */
  lemma ChangeKeeps(s: Race, p: nat, process: Process, final: Option<Dir>, source: Option<Dir>, removals: nat)
    requires Inv(s) && p < |s.processes| && (process.Removing? || process.Making? || process.Returned?)
    requires PartOf(final, source) && (removals == 0 ==> final == source)
    requires source == s.initial || (source.Some? && WholeFor(s, source.value))
    ensures Inv(Change(s, p, process, final, source, removals))
  {
    hide WholeFor, WantedBy, PartOf, HasBinaries;
    var t := Change(s, p, process, final, source, removals);
    forall q | 0 <= q < |t.processes| ensures ProcessInv(t, t.processes[q], t.wants[q]) {
      if q != p {
        DisturbedInv(s, s.processes[q], s.wants[q]);
        SameProcessInv(s, t, t.processes[q], t.wants[q]);
      }
    }
    if source.Some? {
      SameWhole(s, t, source.value);
    }
  }

  lemma DisturbedInv(s: Race, process: Process, want: Marker)
    requires ProcessInv(s, process, want)
    ensures ProcessInv(s, Disturb(process), want)
    ensures Disturb(process).Looking? ==> !Disturb(process).calm
  {
  }

  lemma CheckKeepsSeen(final: Option<Dir>, want: Marker, look: Look, name: string)
    requires (Seen(final, want, look) || look.AtMarker?) && CheckHolds(final, want, look, name)
    requires look.AtFiles? ==> name in look.left
    ensures Seen(final, want, AfterCheck(want, look, name))
  {
    hide Located, HasBinary, MarkerMatches;
  }

  lemma AfterCheckFits(want: Marker, look: Look, name: string)
    requires LookFits(look, want)
    ensures LookFits(AfterCheck(want, look, name), want)
  {
  }

  lemma CheckInv(s: Race, a: Action)
    requires Inv(s) && Enabled(s, a) && a.step.Check?
    ensures Inv(Next(s, a))
  {
    hide FinalInv, Seen, CheckHolds, Move, WantedBy, HasBinaries, AfterCheck;
    var process, want, name := s.processes[a.p], s.wants[a.p], a.step.name;
    assert ProcessInv(s, process, want);
    if CheckHolds(s.final, want, process.look, name) {
      AfterCheckFits(want, process.look, name);
      if process.calm || process.look.AtMarker? {
        CheckKeepsSeen(s.final, want, process.look, name);
      }
      MoveKeeps(s, a.p, process.(look := AfterCheck(want, process.look, name), calm := process.calm || process.look.AtMarker?));
    } else {
      MoveKeeps(s, a.p, if process.again then Returned(false) else Removing);
    }
  }

  lemma RemoveInv(s: Race, a: Action)
    requires Inv(s) && Enabled(s, a) && (a.step.RemoveEntry? || a.step.RemoveDir?)
    ensures Inv(Next(s, a))
  {
    hide Seen, CheckHolds, Change, WantedBy, HasBinaries, WholeFor;
    if a.step.RemoveEntry? {
      ChangeKeeps(s, a.p, s.processes[a.p], Some(s.final.value - {a.step.name}), s.source, s.removals + 1);
    } else {
      ChangeKeeps(s, a.p, Making, None, s.source, s.removals + 1);
    }
  }

  lemma RenameInv(s: Race, a: Action)
    requires Inv(s) && Enabled(s, a) && a.step.Rename?
    ensures Inv(Next(s, a)) && Next(s, a).final.Some? && WholeFor(s, Next(s, a).final.value)
  {
    hide Seen, CheckHolds, WantedBy, HasBinaries, WholeFor;
    var tmp := s.processes[a.p].tmp;
    assert ProcessInv(s, s.processes[a.p], s.wants[a.p]);
    ChangeKeeps(s, a.p, Returned(true), Some(tmp), Some(tmp), 0);
  }

  lemma UnderwayGrows(s: Race, tmp: Dir, left: seq<string>, c: Content)
    requires Underway(s, tmp, left) && left != []
    ensures Underway(s, tmp[left[0] := c], left)
    ensures MayHold(s, left[0], c) ==> Underway(s, tmp[left[0] := c], left[1..])
  {
    hide SortedKeys, MayHold, Strings.StrictlySorted;
    var names := SortedKeys(s.bundle.files.Keys);
    NamesDistinct(s.bundle.files.Keys);
    var done := |names| - |left|;
    assert left[0] == names[done] && left[1..] == names[done + 1..];
    WrittenGrows(s, tmp, names, done, c);
  }

  lemma WrittenGrows(s: Race, tmp: Dir, names: seq<string>, done: nat, c: Content)
    requires Strings.Distinct(names) && done < |names|
    requires forall i :: 0 <= i < done ==> names[i] in tmp && MayHold(s, names[i], tmp[names[i]])
    ensures var next := tmp[names[done] := c];
      && (forall i :: 0 <= i < done ==> names[i] in next && MayHold(s, names[i], next[names[i]]))
      && (MayHold(s, names[done], c) ==> forall i :: 0 <= i < done + 1 ==> names[i] in next && MayHold(s, names[i], next[names[i]]))
  {
    hide MayHold;
  }

  lemma NamesDistinct(keys: set<string>)
    ensures Strings.Distinct(SortedKeys(keys)) && forall i :: 0 <= i < |SortedKeys(keys)| ==> SortedKeys(keys)[i] in keys
  {
    Strings.SortedIsDistinct(SortedKeys(keys));
    assert forall i :: 0 <= i < |SortedKeys(keys)| ==> SortedKeys(keys)[i] in SortedKeys(keys);
  }

  lemma UnderwayFilled(s: Race, tmp: Dir)
    requires Underway(s, tmp, [])
    ensures Filled(s, tmp)
  {
  }

  lemma FilledWhole(s: Race, tmp: Dir, want: Marker)
    requires Filled(s, tmp) && WantedBy(s.bundle, want)
    ensures WholeFor(s, tmp[MARKER := Marked(want)])
  {
    hide WantedBy;
  }

  lemma WriteInv(s: Race, a: Action)
    requires Inv(s) && Enabled(s, a) && s.processes[a.p].Writing?
    ensures Inv(Next(s, a))
  {
    hide FinalInv, Underway, Filled, MayHold, Move, WantedBy, HasBinaries;
    var process := s.processes[a.p];
    assert ProcessInv(s, process, s.wants[a.p]);
    match a.step {
      case WritePart(bytes) =>
        UnderwayGrows(s, process.tmp, process.left, Raw(bytes));
        MoveKeeps(s, a.p, process.(tmp := process.tmp[process.left[0] := Raw(bytes)]));
      case WriteFile(bytes, failed) =>
        UnderwayGrows(s, process.tmp, process.left, Raw(bytes));
        MoveKeeps(s, a.p, Writing(process.tmp[process.left[0] := Raw(bytes)], process.left[1..], process.failed || failed));
      case WritesEnd =>
        UnderwayFilled(s, process.tmp);
        MoveKeeps(s, a.p, if process.failed then Returned(false) else WritingMarker(process.tmp));
      case WriteFails => MoveKeeps(s, a.p, Returned(false));
      case Crash => MoveKeeps(s, a.p, Crashed);
    }
  }

  lemma MarkerInv(s: Race, a: Action)
    requires Inv(s) && Enabled(s, a) && s.processes[a.p].WritingMarker?
    ensures Inv(Next(s, a))
  {
    hide FinalInv, WholeFor, MayHold, Move, WantedBy, HasBinaries;
    var tmp := s.processes[a.p].tmp;
    assert ProcessInv(s, s.processes[a.p], s.wants[a.p]);
    match a.step {
      case MarkerPart(c) => MoveKeeps(s, a.p, WritingMarker(tmp[MARKER := c]));
      case MarkerWritten =>
        FilledWhole(s, tmp, s.wants[a.p]);
        MoveKeeps(s, a.p, Renaming(tmp[MARKER := Marked(s.wants[a.p])]));
      case MarkerFails => MoveKeeps(s, a.p, Returned(false));
      case Crash => MoveKeeps(s, a.p, Crashed);
    }
  }

  lemma StartsWriting(s: Race)
    ensures Underway(s, map[], SortedKeys(s.bundle.files.Keys))
  {
  }

  lemma StartsLooking(final: Option<Dir>, want: Marker)
    ensures Seen(final, want, AtMarker)
  {
  }

  /** Calls, results, failures and crashes. */
  lemma OtherInv(s: Race, a: Action)
    requires Inv(s) && Enabled(s, a)
    requires a.step.Call? || a.step.Pass? || a.step.RemoveNothing? || a.step.RemoveFails? || a.step.MakeTemp? || a.step.RenameFails? || a.step.Crash?
    ensures Inv(Next(s, a))
  {
    hide FinalInv, Seen, Underway, WholeFor, Filled, Move, WantedBy, HasBinaries;
    StartsLooking(s.final, s.wants[a.p]);
    StartsWriting(s);
    match a.step {
      case Call => MoveKeeps(s, a.p, Looking(AtMarker, false, true));
      case Pass => MoveKeeps(s, a.p, Returned(true));
      case RemoveNothing => MoveKeeps(s, a.p, Making);
      case RemoveFails => MoveKeeps(s, a.p, Returned(false));
      case MakeTemp(ok) => MoveKeeps(s, a.p, if ok then Writing(map[], SortedKeys(s.bundle.files.Keys), false) else Returned(false));
      case RenameFails => MoveKeeps(s, a.p, Looking(AtMarker, true, true));
      case Crash => MoveKeeps(s, a.p, Crashed);
    }
  }

  lemma InvNext(s: Race, a: Action)
    requires Inv(s) && Enabled(s, a)
    ensures Inv(Next(s, a))
  {
    hide Inv, Next;
    if a.step.Check? {
      CheckInv(s, a);
    } else if a.step.RemoveEntry? || a.step.RemoveDir? {
      RemoveInv(s, a);
    } else if a.step.Rename? {
      RenameInv(s, a);
    } else if s.processes[a.p].Writing? {
      WriteInv(s, a);
    } else if s.processes[a.p].WritingMarker? {
      MarkerInv(s, a);
    } else {
      OtherInv(s, a);
    }
  }

  // ---------- runs ----------

  /** The state after a run, if every action is enabled when its turn comes. */
  ghost function Exec(s: Race, run: seq<Action>): Option<Race>
    decreases |run|
  {
    if run == [] then Some(s)
    else if Enabled(s, run[0]) then Exec(Next(s, run[0]), run[1..])
    else None
  }

  ghost predicate Reachable(s: Race, t: Race) {
    exists run :: Exec(s, run) == Some(t)
  }

  lemma {:induction false} ExecAppend(s: Race, run: seq<Action>, t: Race, a: Action)
    requires Exec(s, run) == Some(t) && Enabled(t, a)
    ensures Exec(s, run + [a]) == Some(Next(t, a))
    decreases |run|
  {
    hide Enabled, Next;
    if run == [] {
      assert [] + [a] == [a] && [a][1..] == [];
    } else {
      ExecAppend(Next(s, run[0]), run[1..], t, a);
      assert (run + [a])[1..] == run[1..] + [a];
    }
  }

  lemma ReachableNext(s: Race, t: Race, a: Action)
    requires Reachable(s, t) && Enabled(t, a)
    ensures Reachable(s, Next(t, a))
  {
    hide Enabled, Next, Exec;
    var run :| Exec(s, run) == Some(t);
    ExecAppend(s, run, t, a);
  }

  lemma {:induction false} EveryRun(s: Race, run: seq<Action>)
    requires Inv(s) && Exec(s, run).Some?
    ensures Inv(Exec(s, run).value) && SameBundle(s, Exec(s, run).value)
    decreases |run|
  {
    hide Inv, Next, Enabled;
    if run != [] {
      InvNext(s, run[0]);
      SameBundleNext(s, run[0]);
      EveryRun(Next(s, run[0]), run[1..]);
    }
  }

  lemma SameBundleNext(s: Race, a: Action)
    requires Enabled(s, a)
    ensures SameBundle(s, Next(s, a))
  {
    hide CheckHolds, Sized, MayHold;
  }

  /** Crash-atomic: at any moment of any run, with any processes crashed anywhere, the cache holds
      what was found or a whole install, minus entries that a removal has taken out since it came to
      be whole. In particular a directory is never seen with only the first files of a new install. */
  lemma CrashAtomic(bundle: Bundle, signs: set<string>, preserving: bool, wants: seq<Marker>, found: Option<Dir>, run: seq<Action>)
    requires HasBinaries(bundle) && forall p :: 0 <= p < |wants| ==> WantedBy(bundle, wants[p])
    requires Exec(Start(bundle, signs, preserving, wants, found), run).Some?
    ensures var t := Exec(Start(bundle, signs, preserving, wants, found), run).value;
      && PartOf(t.final, t.source) && (t.removals == 0 ==> t.final == t.source)
      && (t.source == found || (t.source.Some? && WholeFor(t, t.source.value)))
  {
    hide PartOf, WholeFor, ProcessInv;
    var s := Start(bundle, signs, preserving, wants, found);
    InvStart(bundle, signs, preserving, wants, found);
    EveryRun(s, run);
  }

  /** The signer keeps bytes and no file is named like the marker. */
  predicate Protected(s: Race) {
    s.preserving && MARKER !in s.bundle.files
  }

  lemma ProtectedIsValid(s: Race, d: Dir, want: Marker)
    requires WholeFor(s, d) && Protected(s) && HasBinaries(s.bundle) && WantedBy(s.bundle, want)
    ensures ValidInstall(Some(d), want)
  {
    hide BundleHash, Located, ValidInstall;
    WholeIsValid(d, s.bundle, s.signs, s.preserving, want);
  }

  /** Success by renaming: the directory is valid at that step, whatever the competitors do. */
  lemma RenamedIsValid(s: Race, a: Action)
    requires Inv(s) && Enabled(s, a) && a.step.Rename? && Protected(s)
    ensures ValidInstall(Next(s, a).final, s.wants[a.p]) && Next(s, a).processes[a.p] == Returned(true)
  {
    hide ValidInstall, WholeFor, WantedBy, HasBinaries;
    RenameInv(s, a);
    var t := Next(s, a);
    SameWhole(s, t, t.final.value);
    ProtectedIsValid(s, t.final.value, s.wants[a.p]);
  }

  // ---------- success by validation ----------

  /** Whatever a validation has passed is still right if it is still there. */
  ghost predicate StillRight(final: Option<Dir>, want: Marker, look: Look) {
    final.Some? ==>
      && (!look.AtMarker? && MARKER in final.value ==> MarkerMatches(final.value[MARKER], want))
      && (look.AtFiles? ==> forall name :: name in want.files && name !in look.left && name in final.value ==>
            Holds(final.value[name], want.files[name]))
  }

  ghost predicate PassedIsRight(s: Race) {
    Sized(s) && forall p :: 0 <= p < |s.processes| && s.processes[p].Looking? ==> StillRight(s.final, s.wants[p], s.processes[p].look)
  }

  lemma CheckKeepsRight(final: Option<Dir>, want: Marker, look: Look, name: string)
    requires StillRight(final, want, look) && CheckHolds(final, want, look, name)
    ensures StillRight(final, want, AfterCheck(want, look, name))
  {
  }

  lemma FewerKeepRight(final: Option<Dir>, fewer: Option<Dir>, want: Marker, look: Look)
    requires StillRight(final, want, look) && PartOf(fewer, final)
    ensures StillRight(fewer, want, look)
  {
  }

  lemma ValidIsRight(final: Option<Dir>, want: Marker, look: Look)
    requires ValidInstall(final, want)
    ensures StillRight(final, want, look)
  {
    hide Located;
  }

  lemma LocalKeepsRight(s: Race, a: Action)
    requires PassedIsRight(s) && Enabled(s, a) && !Touches(a.step)
    ensures PassedIsRight(Next(s, a))
  {
    hide StillRight, CheckHolds, AfterCheck, MayHold, WantedBy, HasBinaries, SortedKeys;
    var process := s.processes[a.p];
    StartsRight(s.final, s.wants[a.p]);
    if a.step.Check? && CheckHolds(s.final, s.wants[a.p], process.look, a.step.name) {
      CheckKeepsRight(s.final, s.wants[a.p], process.look, a.step.name);
    }
  }

  lemma StartsRight(final: Option<Dir>, want: Marker)
    ensures StillRight(final, want, AtMarker)
  {
  }

  /** Removals only take entries away, and a rename brings a whole install. */
  lemma TouchKeepsRight(s: Race, a: Action)
    requires Inv(s) && PassedIsRight(s) && Protected(s) && Enabled(s, a) && Touches(a.step)
    ensures PassedIsRight(Next(s, a))
  {
    hide StillRight, WantedBy, HasBinaries, WholeFor, ProcessInv, FinalInv, ValidInstall;
    var t := Next(s, a);
    if a.step.Rename? {
      RenameInv(s, a);
    }
    forall q | 0 <= q < |t.processes| && t.processes[q].Looking? ensures StillRight(t.final, t.wants[q], t.processes[q].look) {
      assert t.processes[q] == Disturb(s.processes[q]);
      if a.step.Rename? {
        ProtectedIsValid(s, t.final.value, s.wants[q]);
        ValidIsRight(t.final, s.wants[q], t.processes[q].look);
      } else {
        FewerKeepRight(s.final, t.final, s.wants[q], s.processes[q].look);
      }
    }
  }

  lemma RightNext(s: Race, a: Action)
    requires Inv(s) && PassedIsRight(s) && Protected(s) && Enabled(s, a)
    ensures PassedIsRight(Next(s, a))
  {
    hide Inv, PassedIsRight, Next, Enabled;
    if Touches(a.step) {
      TouchKeepsRight(s, a);
    } else {
      LocalKeepsRight(s, a);
    }
  }

  lemma {:induction false} RightInEveryRun(s: Race, run: seq<Action>)
    requires Inv(s) && PassedIsRight(s) && Protected(s) && Exec(s, run).Some?
    ensures PassedIsRight(Exec(s, run).value)
    decreases |run|
  {
    hide Inv, PassedIsRight, Next, Enabled;
    if run != [] {
      InvNext(s, run[0]);
      SameBundleNext(s, run[0]);
      RightNext(s, run[0]);
      RightInEveryRun(Next(s, run[0]), run[1..]);
    }
  }

  /** The cache holds the marker and a file of each name the bundle has. */
  ghost predicate NothingMissing(s: Race) {
    s.final.Some? && MARKER in s.final.value && s.bundle.files.Keys <= s.final.value.Keys
  }

  /** At the deciding step of a success by validation the cache is valid exactly when nothing is
      missing from it. */
  lemma PassIsValid(s: Race, a: Action)
    requires Inv(s) && PassedIsRight(s) && Enabled(s, a) && a.step.Pass?
    ensures ValidInstall(s.final, s.wants[a.p]) <==> NothingMissing(s)
  {
    hide Located, BundleHash;
    var want := s.wants[a.p];
    WantedFiles(s.bundle, want);
    assert StillRight(s.final, want, AtFiles({}));
    if NothingMissing(s) {
      BinariesAreThere(s.final.value, s.bundle, want);
    }
  }

  /** In every run of any processes over any cache: a success by validation is stale only over a
      missing entry, never over wrong bytes. */
  lemma StaleMeansMissing(bundle: Bundle, signs: set<string>, wants: seq<Marker>, found: Option<Dir>, run: seq<Action>, a: Action)
    requires HasBinaries(bundle) && MARKER !in bundle.files && forall p :: 0 <= p < |wants| ==> WantedBy(bundle, wants[p])
    requires Exec(Start(bundle, signs, true, wants, found), run).Some?
    requires Enabled(Exec(Start(bundle, signs, true, wants, found), run).value, a) && a.step.Pass?
    ensures var t := Exec(Start(bundle, signs, true, wants, found), run).value;
            ValidInstall(t.final, t.wants[a.p]) <==> NothingMissing(t)
  {
    hide Inv, Next, Enabled, ValidInstall, NothingMissing, HasBinaries, WantedBy;
    var s := Start(bundle, signs, true, wants, found);
    InvStart(bundle, signs, true, wants, found);
    EveryRun(s, run);
    RightInEveryRun(s, run);
    PassIsValid(Exec(s, run).value, a);
  }

  /** Nothing can be missing when finalDir has not changed since the validation read the marker. */
  lemma CalmPassIsValid(s: Race, a: Action)
    requires Inv(s) && Enabled(s, a) && a.step.Pass? && s.processes[a.p].calm
    ensures ValidInstall(s.final, s.wants[a.p])
  {
    hide Located, Seen, ValidInstall;
    assert ProcessInv(s, s.processes[a.p], s.wants[a.p]);
    AllSeenIsValid(s.final, s.wants[a.p]);
  }

  /** A validation that has made all its checks has seen a valid install. */
  lemma AllSeenIsValid(final: Option<Dir>, want: Marker)
    requires Seen(final, want, AtFiles({}))
    ensures ValidInstall(final, want)
  {
    hide Located;
    forall i | 0 <= i < |RequiredBinaries(want.platform)| ensures HasBinary(final.value, want, RequiredBinaries(want.platform)[i]) {
      assert CheckHolds(final, want, AtBinary(i), "");
    }
    forall name | name in want.files ensures name in final.value && Holds(final.value[name], want.files[name]) {
      assert CheckHolds(final, want, AtFiles({}), name);
    }
  }

  /** The install is valid and nobody is removing it. */
  ghost predicate Settled(s: Race) {
    && Inv(s)
    && (forall p :: 0 <= p < |s.wants| ==> ValidInstall(s.final, s.wants[p]))
    && forall p :: 0 <= p < |s.processes| ==> !s.processes[p].Removing?
  }

  lemma ValidCheckHolds(final: Option<Dir>, want: Marker, look: Look, name: string)
    requires ValidInstall(final, want) && (look.AtFiles? ==> name in want.files) && (look.AtBinary? ==> look.i < |RequiredBinaries(want.platform)|)
    ensures CheckHolds(final, want, look, name)
  {
    hide Located;
  }

  /** Once the install is valid and no removal is under way, no process ever changes it again, no
      validation fails any more, and a rename that comes late loses. */
  lemma SettledNext(s: Race, a: Action)
    requires Settled(s) && Enabled(s, a)
    ensures Settled(Next(s, a)) && Next(s, a).final == s.final
    ensures a.step.Check? ==> Next(s, a).processes[a.p].Looking?
    ensures !a.step.Rename? && !a.step.RemoveEntry? && !a.step.RemoveDir?
  {
    hide Inv, ValidInstall, Located, CheckHolds, WantedBy, HasBinaries, MayHold;
    InvNext(s, a);
    SameBundleNext(s, a);
    ValidIsNotEmpty(s.final, s.wants[a.p]);
    InvSized(s);
    assert !s.processes[a.p].Removing?;
    if a.step.Check? {
      LookingFits(s, a.p);
      ValidCheckHolds(s.final, s.wants[a.p], s.processes[a.p].look, a.step.name);
    }
  }

  lemma InvSized(s: Race)
    requires Inv(s)
    ensures Sized(s)
  {
  }

  lemma LookingFits(s: Race, p: nat)
    requires Inv(s) && p < |s.processes| && s.processes[p].Looking?
    ensures LookFits(s.processes[p].look, s.wants[p])
  {
    assert ProcessInv(s, s.processes[p], s.wants[p]);
  }

  lemma ValidIsNotEmpty(final: Option<Dir>, want: Marker)
    requires ValidInstall(final, want)
    ensures final.Some? && final.value != map[]
  {
  }

  /** A process that only reads, and has not failed. */
  predicate Unharmed(process: Process) {
    process.Idle? || process.Looking? || process == Returned(true) || process.Crashed?
  }

  /** From a settled cache on, whatever any number of processes do: the install stays as it is, and
      every call that starts from here succeeds, unless it crashes, without writing anything. */
  lemma {:induction false} SettledForever(s: Race, run: seq<Action>)
    requires Settled(s) && Exec(s, run).Some?
    ensures var t := Exec(s, run).value;
      && Settled(t) && t.final == s.final && |t.processes| == |s.processes|
      && forall p :: 0 <= p < |s.processes| && Unharmed(s.processes[p]) ==> Unharmed(t.processes[p])
    decreases |run|
  {
    hide Settled, Next, Enabled;
    if run != [] {
      var next := Next(s, run[0]);
      SettledNext(s, run[0]);
      UnharmedStays(s, run[0]);
      SettledForever(next, run[1..]);
    }
  }

  lemma UnharmedStays(s: Race, a: Action)
    requires Settled(s) && Enabled(s, a)
    ensures |Next(s, a).processes| == |s.processes|
    ensures forall p :: 0 <= p < |s.processes| && Unharmed(s.processes[p]) ==> Unharmed(Next(s, a).processes[p])
  {
    hide Settled, CheckHolds, Sized, MayHold;
    SettledNext(s, a);
  }

  /** A successful rename settles the cache unless somebody is in the middle of a removal. */
  lemma RenameSettles(s: Race, a: Action)
    requires Inv(s) && Enabled(s, a) && a.step.Rename? && Protected(s)
    requires forall p :: 0 <= p < |s.processes| ==> !s.processes[p].Removing?
    ensures Settled(Next(s, a))
  {
    hide Inv, ValidInstall, WantedBy, HasBinaries, CheckHolds, MayHold;
    InvNext(s, a);
    RenamedIsValid(s, a);
    InvSized(s);
    var t := Next(s, a);
    forall p | 0 <= p < |t.wants| ensures ValidInstall(t.final, t.wants[p]) {
      AnyTime(s.bundle, s.wants[a.p], s.wants[p], t.final);
    }
  }
}
