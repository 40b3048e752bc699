/** When a success by validation can be stale at its own deciding step (pgtools/extract.go): exactly which
    caches, bundles and numbers of processes have a run in which it is. */
module StaleInstall {
  import opened Models
  import opened Bundles
  import opened InstallCache
  import opened InstallRace
  import opened LoneInstall

  /** The next step is a success by validation, and the cache is not valid. */
  ghost predicate StaleAt(t: Race, a: Action) {
    Enabled(t, a) && a.step.Pass? && !ValidInstall(t.final, t.wants[a.p])
  }

  ghost predicate MayBeStale(s: Race) {
    exists t, a :: Reachable(s, t) && StaleAt(t, a)
  }

  // ---------- one process among others that wait ----------

  /** The race looks to process `k` as its lone machine does: the others neither validate nor move. */
  ghost predicate Follows(s: Race, k: nat, l: Race) {
    && Sized(s) && k < |s.processes| && |l.processes| == 1
    && l.processes[0] == s.processes[k] && l.wants == [s.wants[k]]
    && s.final == l.final && s.bundle == l.bundle && s.signs == l.signs && s.preserving == l.preserving
    && forall q :: 0 <= q < |s.processes| && q != k ==> !s.processes[q].Looking?
  }

  /** The race `t` has come from `s` by steps of process `k` alone. */
  ghost predicate OthersWait(s: Race, k: nat, t: Race) {
    && SameBundle(s, t) && |t.processes| == |s.processes|
    && forall q :: 0 <= q < |s.processes| && q != k ==> t.processes[q] == s.processes[q]
  }

  lemma LiftStep(s: Race, k: nat, l: Race, a: Action)
    requires Follows(s, k, l) && Enabled(l, a)
    ensures Enabled(s, Action(k, a.step))
    ensures Follows(Next(s, Action(k, a.step)), k, Next(l, a)) && OthersWait(s, k, Next(s, Action(k, a.step)))
  {
    hide WantedBy, HasBinaries, CheckHolds, AfterCheck, Installed;
    assert a.p == 0;
    var b := Action(k, a.step);
    if Touches(a.step) {
      LiftTouch(s, k, l, a);
    } else {
      assert Local(s, s.processes[k], s.wants[k], a.step) == Local(l, l.processes[0], l.wants[0], a.step);
    }
  }

  lemma LiftTouch(s: Race, k: nat, l: Race, a: Action)
    requires Follows(s, k, l) && Enabled(l, a) && Touches(a.step)
    ensures Enabled(s, Action(k, a.step))
    ensures Follows(Next(s, Action(k, a.step)), k, Next(l, a)) && OthersWait(s, k, Next(s, Action(k, a.step)))
  {
    hide WantedBy, HasBinaries, CheckHolds, AfterCheck, Installed;
  }

  lemma ReachableFirst(s: Race, a: Action, t: Race)
    requires Enabled(s, a) && Reachable(Next(s, a), t)
    ensures Reachable(s, t)
  {
    hide Enabled, Next;
    var run :| Exec(Next(s, a), run) == Some(t);
    assert ([a] + run)[1..] == run;
    assert Exec(s, [a] + run) == Some(t);
  }

  /** What a process can do alone it can do while the others wait. */
  lemma {:induction false} LiftRun(s: Race, k: nat, l: Race, run: seq<Action>) returns (t: Race)
    requires Follows(s, k, l) && Exec(l, run).Some?
    ensures Reachable(s, t) && Follows(t, k, Exec(l, run).value) && OthersWait(s, k, t)
    decreases |run|
  {
    hide Follows, Enabled, Next, Reachable, SameBundle;
    if run == [] {
      t := s;
      StartsHere(s, k);
    } else {
      LiftStep(s, k, l, run[0]);
      var next := Next(s, Action(k, run[0].step));
      t := LiftRun(next, k, Next(l, run[0]), run[1..]);
      ReachableFirst(s, Action(k, run[0].step), t);
      WaitOn(s, k, next, t);
    }
  }

  lemma StartsHere(s: Race, k: nat)
    ensures Reachable(s, s) && OthersWait(s, k, s)
  {
    assert Exec(s, []) == Some(s);
  }

  lemma WaitOn(s: Race, k: nat, next: Race, t: Race)
    requires OthersWait(s, k, next) && OthersWait(next, k, t)
    ensures OthersWait(s, k, t)
  {
  }

  /** The same for a place the lone call comes to. */
  lemma LiftReaches(s: Race, k: nat, g: Setting, process: Process, final: Option<Dir>) returns (t: Race)
    requires Follows(s, k, Alone(g, Idle, g.found, g.found, 0)) && Reaches(g, process, final)
    ensures Reachable(s, t) && OthersWait(s, k, t)
    ensures Sized(t) && t.processes[k] == process && t.final == final
  {
    hide Exec, Sized, SameBundle, Reachable;
    var source, removals: nat :| Reachable(Alone(g, Idle, g.found, g.found, 0), Alone(g, process, final, source, removals));
    var run := RunTo(Alone(g, Idle, g.found, g.found, 0), Alone(g, process, final, source, removals));
    t := LiftRun(s, k, Alone(g, Idle, g.found, g.found, 0), run);
  }


  lemma RunTo(s: Race, t: Race) returns (run: seq<Action>)
    requires Reachable(s, t)
    ensures Exec(s, run) == Some(t)
  {
    run :| Exec(s, run) == Some(t);
  }

  lemma ReachableThen(s: Race, t: Race, u: Race)
    requires Reachable(s, t) && Reachable(t, u)
    ensures Reachable(s, u)
  {
    hide Exec;
    var run :| Exec(s, run) == Some(t);
    var rest :| Exec(t, rest) == Some(u);
    ExecConcat(s, run, rest);
  }

  lemma {:induction false} ExecConcat(s: Race, run: seq<Action>, rest: seq<Action>)
    requires Exec(s, run).Some?
    ensures Exec(s, run + rest) == Exec(Exec(s, run).value, rest)
    decreases |run|
  {
    hide Enabled, Next;
    if run == [] {
      assert run + rest == rest;
    } else {
      ExecConcat(Next(s, run[0]), run[1..], rest);
      assert (run + rest)[1..] == run[1..] + rest;
    }
  }

  // ---------- the run ----------

  ghost predicate AllWanted(b: Bundle, wants: seq<Marker>) {
    HasBinaries(b) && forall p :: 0 <= p < |wants| ==> WantedBy(b, wants[p])
  }

  /** An install whose files hold the bundle's own bytes. */
  function Plain(b: Bundle, want: Marker): Dir {
    (map name | name in b.files :: Raw(b.files[name]))[MARKER := Marked(want)]
  }

  lemma PlainIsValid(b: Bundle, signs: set<string>, preserving: bool, want: Marker)
    requires WantedBy(b, want) && HasBinaries(b) && MARKER !in b.files
    ensures Whole(Plain(b, want), b, signs, preserving) && Plain(b, want)[MARKER] == Marked(want)
    ensures ValidInstall(Some(Plain(b, want)), want)
  {
    hide WantedBy, HasBinaries, ValidInstall;
    WholeIsValid(Plain(b, want), b, signs, preserving, want);
  }

  /** The first process finds an invalid cache and pauses before it removes anything. */
  lemma FirstPauses(b: Bundle, signs: set<string>, preserving: bool, wants: seq<Marker>, found: Option<Dir>) returns (t: Race)
    requires AllWanted(b, wants) && |wants| > 0 && !ValidInstall(found, wants[0])
    ensures Reachable(Start(b, signs, preserving, wants, found), t) && OthersWait(Start(b, signs, preserving, wants, found), 0, t)
    ensures Sized(t) && t.processes[0] == Removing && t.final == found
  {
    hide ValidInstall, WantedBy, HasBinaries, Reachable, Reaches;
    var g := Setting(b, signs, preserving, wants[0], found);
    Validates(g);
    t := LiftReaches(Start(b, signs, preserving, wants, found), 0, g, Removing, found);
  }

  /** Alone, a process installs the bundle over an invalid cache, is called again and makes all its checks. */
  lemma InstallsAndLooks(g: Setting)
    requires Proper(g) && MARKER !in g.bundle.files && !ValidInstall(g.found, g.want) && SafeFiles(g.bundle)
    ensures Reaches(g, Looking(AtFiles({}), false, true), Some(Plain(g.bundle, g.want)))
  {
    hide ValidInstall, Reaches, Whole, Plain, Seen;
    assert WantedBy(g.bundle, g.want) && HasBinaries(g.bundle);
    hide Proper;
    var whole := Plain(g.bundle, g.want);
    Validates(g);
    PlainIsValid(g.bundle, g.signs, g.preserving, g.want);
    Succeeds(g, whole);
    Moves(g, Returned(true), Some(whole), Call, Looking(AtMarker, false, true));
    Looks(g, Some(whole));
  }

  /** While the first pauses, the second installs the bundle, is called again and makes all its checks. */
  lemma SecondLooks(b: Bundle, signs: set<string>, preserving: bool, wants: seq<Marker>, found: Option<Dir>) returns (t: Race)
    requires AllWanted(b, wants) && |wants| > 1 && !ValidInstall(found, wants[0]) && MARKER !in b.files && SafeFiles(b)
    ensures Reachable(Start(b, signs, preserving, wants, found), t) && SameBundle(Start(b, signs, preserving, wants, found), t)
    ensures Sized(t) && |t.processes| == |wants| && t.processes[0] == Removing && t.processes[1].Looking? && t.processes[1].look == AtFiles({})
    ensures t.final == Some(Plain(b, wants[1])) && t.wants == wants
  {
    hide ValidInstall, WantedBy, HasBinaries, Reachable, Reaches, Plain;
    var s := FirstPauses(b, signs, preserving, wants, found);
    var g := Setting(b, signs, preserving, wants[1], found);
    AnyTime(b, wants[0], wants[1], found);
    InstallsAndLooks(g);
    t := LiftReaches(s, 1, g, Looking(AtFiles({}), false, true), Some(Plain(b, wants[1])));
    ReachableThen(Start(b, signs, preserving, wants, found), s, t);
  }

  /** Now the first removes the marker, and the second, which has made all its checks, returns success. */
  lemma BecomesStale(b: Bundle, signs: set<string>, preserving: bool, wants: seq<Marker>, found: Option<Dir>)
    requires AllWanted(b, wants) && |wants| > 1 && !ValidInstall(found, wants[0]) && MARKER !in b.files && SafeFiles(b)
    ensures MayBeStale(Start(b, signs, preserving, wants, found))
  {
    var s := Start(b, signs, preserving, wants, found);
    var t := SecondLooks(b, signs, preserving, wants, found);
    hide Reachable, Sized, Plain, WantedBy, HasBinaries, CheckHolds, Installed, ValidInstall, Start, AllWanted, Safe, SafeFiles;
    assert MARKER in t.final.value by { MarkerIsThere(b, wants[1]); }
    var u := Next(t, Action(0, RemoveEntry(MARKER)));
    ReachableNext(s, t, Action(0, RemoveEntry(MARKER)));
    assert u.processes[1] == Disturb(t.processes[1]);
    assert Sized(u) by { SizedAfter(t, Action(0, RemoveEntry(MARKER))); }
    assert !ValidInstall(u.final, u.wants[1]) by { NoMarker(u.final, u.wants[1]); }
    assert StaleAt(u, Action(1, Pass));
  }

  lemma NoMarker(d: Option<Dir>, want: Marker)
    requires d.Some? && MARKER !in d.value
    ensures !ValidInstall(d, want)
  {
  }

  lemma MarkerIsThere(b: Bundle, want: Marker)
    ensures MARKER in Plain(b, want)
  {
  }

  lemma SizedAfter(s: Race, a: Action)
    requires Enabled(s, a)
    ensures Sized(Next(s, a))
  {
    hide WantedBy, HasBinaries, CheckHolds, AfterCheck, Installed;
  }

  // ---------- when it cannot happen ----------

  /** A process on its own is never disturbed in a validation. */
  ghost predicate Undisturbed(s: Race) {
    Inv(s) && |s.processes| == 1 && (s.processes[0].Looking? ==> s.processes[0].calm)
  }

  lemma UndisturbedNext(s: Race, a: Action)
    requires Undisturbed(s) && Enabled(s, a)
    ensures Undisturbed(Next(s, a))
  {
    InvNext(s, a);
    CalmStays(s, a);
  }

  lemma CalmStays(s: Race, a: Action)
    requires Enabled(s, a) && |s.processes| == 1 && (s.processes[0].Looking? ==> s.processes[0].calm)
    ensures |Next(s, a).processes| == 1 && (Next(s, a).processes[0].Looking? ==> Next(s, a).processes[0].calm)
  {
    hide Sized, CheckHolds, AfterCheck, MayHold;
  }

  lemma {:induction false} UndisturbedRun(s: Race, run: seq<Action>)
    requires Undisturbed(s) && Exec(s, run).Some?
    ensures Undisturbed(Exec(s, run).value)
    decreases |run|
  {
    hide Undisturbed, Next, Enabled;
    if run != [] {
      UndisturbedNext(s, run[0]);
      UndisturbedRun(Next(s, run[0]), run[1..]);
    }
  }

  /** With a file named like the marker no validation gets past that file: the marker it has seen can
      only disappear, or be replaced by another marker. */
  ghost predicate MarkerBlocks(s: Race) {
    && Inv(s) && MARKER in s.bundle.files
    && forall p :: 0 <= p < |s.processes| && s.processes[p].Looking? ==> Blocked(s.final, s.processes[p].look)
  }

  ghost predicate Blocked(final: Option<Dir>, look: Look) {
    && (!look.AtMarker? && final.Some? && MARKER in final.value ==> final.value[MARKER].Marked?)
    && (look.AtFiles? ==> MARKER in look.left)
  }

  lemma CheckStaysBlocked(final: Option<Dir>, b: Bundle, want: Marker, look: Look, name: string)
    requires Blocked(final, look) && CheckHolds(final, want, look, name) && WantedBy(b, want) && MARKER in b.files
    ensures Blocked(final, AfterCheck(want, look, name))
  {
    hide BundleHash, HasBinary;
    WantedFiles(b, want);
  }

  lemma BlockedNext(s: Race, a: Action)
    requires MarkerBlocks(s) && Enabled(s, a)
    ensures MarkerBlocks(Next(s, a))
  {
    InvNext(s, a);
    SameBundleNext(s, a);
    if Touches(a.step) {
      BlockedTouch(s, a);
    } else {
      BlockedLocal(s, a);
    }
  }

  lemma BlockedTouch(s: Race, a: Action)
    requires MarkerBlocks(s) && Enabled(s, a) && Touches(a.step) && Inv(Next(s, a))
    ensures MarkerBlocks(Next(s, a))
  {
    hide WantedBy, HasBinaries, ProcessInv, FinalInv, WholeFor;
    var t := Next(s, a);
    if a.step.Rename? {
      RenameInv(s, a);
      WholeHasMarker(s, t.final.value);
    }
    forall q | 0 <= q < |t.processes| && t.processes[q].Looking? ensures Blocked(t.final, t.processes[q].look) {
      assert t.processes[q] == Disturb(s.processes[q]);
      assert Blocked(s.final, s.processes[q].look);
    }
  }

  lemma WholeHasMarker(s: Race, d: Dir)
    requires WholeFor(s, d)
    ensures MARKER in d && d[MARKER].Marked?
  {
  }

  lemma BlockedLocal(s: Race, a: Action)
    requires MarkerBlocks(s) && Enabled(s, a) && !Touches(a.step) && Inv(Next(s, a))
    ensures MarkerBlocks(Next(s, a))
  {
    LocalIsBlocked(s, a);
    hide Inv, Local, StepEnabled, Sized, Blocked;
    var process := Local(s, s.processes[a.p], s.wants[a.p], a.step);
    assert Next(s, a) == Move(s, a.p, process);
  }

  lemma LocalIsBlocked(s: Race, a: Action)
    requires MarkerBlocks(s) && Enabled(s, a) && !Touches(a.step)
    ensures var process := Local(s, s.processes[a.p], s.wants[a.p], a.step); process.Looking? ==> Blocked(s.final, process.look)
  {
    hide Inv, HasBinaries, CheckHolds, AfterCheck, MayHold, Blocked, SortedKeys, Safe;
    if a.step.Check? {
      CheckIsBlocked(s, a);
    } else {
      StartsBlocked(s.final);
    }
  }

  lemma CheckIsBlocked(s: Race, a: Action)
    requires MarkerBlocks(s) && Enabled(s, a) && a.step.Check?
    ensures var process := Local(s, s.processes[a.p], s.wants[a.p], a.step); process.Looking? ==> Blocked(s.final, process.look)
  {
    var process, want, name := s.processes[a.p], s.wants[a.p], a.step.name;
    assert Blocked(s.final, process.look) && WantedBy(s.bundle, want) && MARKER in s.bundle.files;
    hide MarkerBlocks, Sized, WantedBy, CheckHolds, AfterCheck, Blocked;
    if CheckHolds(s.final, want, process.look, name) {
      CheckStaysBlocked(s.final, s.bundle, want, process.look, name);
    }
  }

  lemma StartsBlocked(final: Option<Dir>)
    ensures Blocked(final, AtMarker)
  {
  }

  lemma {:induction false} BlockedRun(s: Race, run: seq<Action>)
    requires MarkerBlocks(s) && Exec(s, run).Some?
    ensures MarkerBlocks(Exec(s, run).value)
    decreases |run|
  {
    hide MarkerBlocks, Next, Enabled;
    if run != [] {
      BlockedNext(s, run[0]);
      BlockedRun(Next(s, run[0]), run[1..]);
    }
  }

  /** With a name that is refused nobody finishes an install, so the cache only loses what was found, and
      every check that has passed holds of what was found. */
  ghost predicate Dwindling(s: Race, unsafe: string) {
    && Inv(s) && unsafe in s.bundle.files && !Safe(unsafe) && PartOf(s.final, s.initial)
    && forall p :: 0 <= p < |s.processes| ==> Stuck(s, s.processes[p], s.wants[p], unsafe)
  }

  ghost predicate Stuck(s: Race, process: Process, want: Marker, unsafe: string) {
    match process
    case Looking(look, _, _) => Seen(s.initial, want, look)
    case Writing(_, left, _) => unsafe in left
    case WritingMarker(_) => false
    case Renaming(_) => false
    case _ => true
  }

  lemma CheckedAtFirst(final: Option<Dir>, initial: Option<Dir>, want: Marker, look: Look, name: string)
    requires PartOf(final, initial) && CheckHolds(final, want, look, name)
    ensures CheckHolds(initial, want, look, name)
  {
    hide Located;
  }

  lemma DwindlingNext(s: Race, a: Action, unsafe: string)
    requires Dwindling(s, unsafe) && Enabled(s, a)
    ensures Dwindling(Next(s, a), unsafe)
  {
    InvNext(s, a);
    SameBundleNext(s, a);
    assert Stuck(s, s.processes[a.p], s.wants[a.p], unsafe);
    if Touches(a.step) {
      DwindlingTouch(s, a, unsafe);
    } else {
      DwindlingLocal(s, a, unsafe);
    }
  }

  lemma DwindlingTouch(s: Race, a: Action, unsafe: string)
    requires Dwindling(s, unsafe) && Enabled(s, a) && Touches(a.step) && Inv(Next(s, a))
    requires Stuck(s, s.processes[a.p], s.wants[a.p], unsafe)
    ensures Dwindling(Next(s, a), unsafe)
  {
    hide Inv, WantedBy, HasBinaries, Seen;
    var t := Next(s, a);
    forall q | 0 <= q < |t.processes| ensures Stuck(t, t.processes[q], t.wants[q], unsafe) {
      assert Stuck(s, s.processes[q], s.wants[q], unsafe);
      assert q != a.p ==> t.processes[q] == Disturb(s.processes[q]);
    }
  }

  lemma DwindlingLocal(s: Race, a: Action, unsafe: string)
    requires Dwindling(s, unsafe) && Enabled(s, a) && !Touches(a.step) && Inv(Next(s, a))
    requires Stuck(s, s.processes[a.p], s.wants[a.p], unsafe)
    ensures Dwindling(Next(s, a), unsafe)
  {
    hide Inv, WantedBy, HasBinaries, Seen, CheckHolds, AfterCheck, MayHold, PartOf, Safe;
    var process, want, t := s.processes[a.p], s.wants[a.p], Next(s, a);
    StartsLooking(s.initial, want);
    if a.step.Check? && CheckHolds(s.final, want, process.look, a.step.name) {
      CheckedAtFirst(s.final, s.initial, want, process.look, a.step.name);
      CheckKeepsSeen(s.initial, want, process.look, a.step.name);
    }
    forall q | 0 <= q < |t.processes| ensures Stuck(t, t.processes[q], t.wants[q], unsafe) {
      assert Stuck(s, s.processes[q], s.wants[q], unsafe);
    }
  }

  lemma {:induction false} DwindlingRun(s: Race, unsafe: string, run: seq<Action>)
    requires Dwindling(s, unsafe) && Exec(s, run).Some?
    ensures Dwindling(Exec(s, run).value, unsafe)
    decreases |run|
  {
    hide Dwindling, Next, Enabled;
    if run != [] {
      DwindlingNext(s, run[0], unsafe);
      DwindlingRun(Next(s, run[0]), unsafe, run[1..]);
    }
  }

  lemma DwindlingStart(b: Bundle, signs: set<string>, preserving: bool, wants: seq<Marker>, found: Option<Dir>, unsafe: string)
    requires AllWanted(b, wants) && unsafe in b.files && !Safe(unsafe)
    ensures Dwindling(Start(b, signs, preserving, wants, found), unsafe)
  {
    hide WantedBy, HasBinaries;
    InvStart(b, signs, preserving, wants, found);
  }

  lemma DwindlingPass(t: Race, a: Action, unsafe: string)
    requires Dwindling(t, unsafe) && Enabled(t, a) && a.step.Pass?
    ensures ValidInstall(t.initial, t.wants[a.p])
  {
    hide Inv, ValidInstall, Seen;
    assert Stuck(t, t.processes[a.p], t.wants[a.p], unsafe);
    AllSeenIsValid(t.initial, t.wants[a.p]);
  }

  lemma NeverStale(b: Bundle, signs: set<string>, preserving: bool, wants: seq<Marker>, found: Option<Dir>, run: seq<Action>, a: Action)
    requires AllWanted(b, wants) && Exec(Start(b, signs, preserving, wants, found), run).Some?
    requires |wants| < 2 || ValidInstall(found, wants[0]) || MARKER in b.files || !SafeFiles(b)
    ensures !StaleAt(Exec(Start(b, signs, preserving, wants, found), run).value, a)
  {
    hide Exec, Next, ValidInstall, WantedBy, HasBinaries, FinalInv, ProcessInv;
    var s := Start(b, signs, preserving, wants, found);
    InvStart(b, signs, preserving, wants, found);
    EveryRun(s, run);
    var t := Exec(s, run).value;
    if StaleAt(t, a) {
      if |wants| < 2 {
        UndisturbedRun(s, run);
        CalmPassIsValid(t, a);
      } else if ValidInstall(found, wants[0]) {
        forall p | 0 <= p < |wants| ensures ValidInstall(found, wants[p]) {
          AnyTime(b, wants[0], wants[p], found);
        }
        SettledForever(s, run);
      } else if MARKER in b.files {
        BlockedRun(s, run);
      } else {
        var unsafe :| unsafe in b.files && !Safe(unsafe);
        DwindlingStart(b, signs, preserving, wants, found, unsafe);
        DwindlingRun(s, unsafe, run);
        DwindlingPass(t, a, unsafe);
        AnyTime(b, wants[0], wants[a.p], found);
      }
      assert false;
    }
  }

  /** Exactly when some run of these processes over this cache has a success that is stale at its own
      deciding step: two processes at least, a cache that was not valid, and a bundle that can be
      written and come to be valid at all. */
  lemma StaleIff(b: Bundle, signs: set<string>, preserving: bool, wants: seq<Marker>, found: Option<Dir>)
    requires AllWanted(b, wants)
    ensures MayBeStale(Start(b, signs, preserving, wants, found)) <==>
              |wants| >= 2 && !ValidInstall(found, wants[0]) && MARKER !in b.files && SafeFiles(b)
  {
    hide ValidInstall, AllWanted, StaleAt, Exec;
    var s := Start(b, signs, preserving, wants, found);
    if |wants| >= 2 && !ValidInstall(found, wants[0]) && MARKER !in b.files && SafeFiles(b) {
      BecomesStale(b, signs, preserving, wants, found);
    } else if MayBeStale(s) {
      var t, a :| Reachable(s, t) && StaleAt(t, a);
      var run :| Exec(s, run) == Some(t);
      NeverStale(b, signs, preserving, wants, found, run, a);
    }
  }
}
