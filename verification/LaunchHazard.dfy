/** How signals let two live children share every resource, and exactly which ones do.

  Two TERM or INT: the first makes the launcher give its reservations up, one rmdir after the other. The second one,
  before the list of reservations is emptied, ends the shell through its EXIT trap, which goes through the whole list
  again and removes what somebody else has reserved in the meantime.

  One signal that is not trapped, HUP for instance: right after the fork it ends the shell through its EXIT trap when
  the pid of the child has not been noted, so the reservations go and the child stays.
*/
module LaunchHazard {
  import opened Common
  import opened Launch
  import opened LaunchInvariant
  import opened LaunchTheorems

  /** A stretch of a run, from any state. */
  ghost predicate IsPath(path: Run) {
    && |path.states| == |path.steps| + 1
    && forall i | 0 <= i < |path.steps| ::
         Enabled(path.states[i], path.steps[i]) && path.states[i + 1] == Apply(path.states[i], path.steps[i])
  }

  ghost predicate Connects(path: Run, s: State, t: State) {
    IsPath(path) && path.states[0] == s && path.states[|path.steps|] == t
  }

  ghost predicate Reaches(s: State, t: State) {
    exists path: Run :: Connects(path, s, t)
  }

  lemma StayReaches(s: State)
    ensures Reaches(s, s)
  {
    assert Connects(Run([s], []), s, s);
  }

  lemma StepReaches(s: State, step: Step, u: State)
    requires Enabled(s, step) && Reaches(Apply(s, step), u)
    ensures Reaches(s, u)
  {
    hide Apply, Enabled;
    var path: Run :| Connects(path, Apply(s, step), u);
    var longer := Run([s] + path.states, [step] + path.steps);
    forall i | 0 <= i < |longer.steps|
      ensures Enabled(longer.states[i], longer.steps[i])
      ensures longer.states[i + 1] == Apply(longer.states[i], longer.steps[i])
    {
      if i > 0 {
        assert longer.states[i] == path.states[i - 1] && longer.steps[i] == path.steps[i - 1];
      }
    }
    assert Connects(longer, s, u);
  }

  // One launcher's own progress. `ls` has the others, which stand still.

  function At(ls: seq<Launcher>, l: nat, x: Launcher, dirs: map<Path, nat>): State
    requires l < |ls|
  {
    State(ls[l := x], dirs)
  }

  /** A command that leaves the directories alone. */
  predicate Quiet(x: Launcher) {
    && Running(x)
    && !x.pc.Acquire?
    && (x.pc.CleanupRelease? || x.pc.ForwardRelease? ==> x.pc.k == 0)
    && (x.pc.Record? ==> x.pc.i < |LockPaths(x.config)|)
    && (x.pc.WaitChild? || x.pc.CleanupWait? || x.pc.ForwardWait? ==> x.child.Exited?)
  }

  lemma QuietStep(ls: seq<Launcher>, l: nat, x: Launcher, dirs: map<Path, nat>, u: State)
    requires l < |ls| && Quiet(x) && Reaches(At(ls, l, AdvanceLauncher(x, true), dirs), u)
    ensures Reaches(At(ls, l, x, dirs), u)
  {
    hide LockPaths, AdvanceLauncher, Reaches;
    var step := Step(l, Advance(true));
    assert Apply(At(ls, l, x, dirs), step).launchers == ls[l := AdvanceLauncher(x, true)];
    StepReaches(At(ls, l, x, dirs), step, u);
  }

  lemma SignalStep(
    ls: seq<Launcher>, l: nat, x: Launcher, dirs: map<Path, nat>, signal: Signal, runsExitTrap: bool, u: State)
    requires l < |ls| && Running(x) && (runsExitTrap ==> DispositionOf(x, signal).Default? && x.exitTrap)
    requires Reaches(At(ls, l, DeliverTo(x, signal, runsExitTrap), dirs), u)
    ensures Reaches(At(ls, l, x, dirs), u)
  {
    hide DeliverTo, Reaches;
    var step := Step(l, Deliver(signal, runsExitTrap));
    assert Apply(At(ls, l, x, dirs), step).launchers == ls[l := DeliverTo(x, signal, runsExitTrap)];
    StepReaches(At(ls, l, x, dirs), step, u);
  }

  lemma ExitStep(ls: seq<Launcher>, l: nat, x: Launcher, dirs: map<Path, nat>, u: State)
    requires l < |ls| && x.child.Live? && Reaches(At(ls, l, x.(child := Exited), dirs), u)
    ensures Reaches(At(ls, l, x, dirs), u)
  {
    hide Reaches;
    assert Apply(At(ls, l, x, dirs), Step(l, ChildExits)).launchers == ls[l := x.(child := Exited)];
    StepReaches(At(ls, l, x, dirs), Step(l, ChildExits), u);
  }

  // One configuration for all launchers, so that all reservations coincide

  /** No launcher could take the same directory twice. */
  ghost predicate Reserves(c: Config) {
    forall i, j | 0 <= i < j < |LockPaths(c)| :: LockPaths(c)[i] != LockPaths(c)[j]
  }

  ghost predicate Launchable(c: Config) {
    !c.dryRun && Reserves(c)
  }

  /** The first k reservations of c, all made by one launcher. */
  function Held(c: Config, k: nat, owner: nat): map<Path, nat>
    requires k <= |LockPaths(c)|
  {
    map path | path in LockPaths(c)[..k] :: owner
  }

  function Fresh(c: Config): Launcher {
    Launcher(c, Acquire(0), [], Forward, Forward, true, false, false, NotForked, 0, 0)
  }

  function Holding(c: Config, i: nat): Launcher
    requires i <= |LockPaths(c)|
  {
    Fresh(c).(pc := Acquire(i), locks := LockPaths(c)[..i])
  }

  function HoldingAll(c: Config): Launcher {
    Fresh(c).(pc := AllHeld, locks := LockPaths(c))
  }

  function Waiting(c: Config): Launcher {
    HoldingAll(c).(pc := WaitChild, pidKnown := true, child := Live)
  }

  lemma HeldGrows(c: Config, i: nat, owner: nat)
    requires i < |LockPaths(c)| && Reserves(c)
    ensures LockPaths(c)[i] !in Held(c, i, owner)
    ensures Held(c, i, owner)[LockPaths(c)[i] := owner] == Held(c, i + 1, owner)
    ensures Held(c, i + 1, owner) - {LockPaths(c)[i]} == Held(c, i, owner)
  {
    var paths := LockPaths(c);
    hide LockPaths;
    assert paths[..i + 1] == paths[..i] + [paths[i]];
  }

  lemma AcquireStep(ls: seq<Launcher>, l: nat, c: Config, i: nat, u: State)
    requires l < |ls| && Reserves(c) && i < |LockPaths(c)|
    requires Reaches(At(ls, l, Holding(c, i).(pc := Record(i)), Held(c, i + 1, l)), u)
    ensures Reaches(At(ls, l, Holding(c, i), Held(c, i, l)), u)
  {
    HeldGrows(c, i, l);
    hide LockPaths, Reaches, Held, Launchable;
    var before := At(ls, l, Holding(c, i), Held(c, i, l));
    var step := Step(l, Advance(true));
    assert Apply(before, step).launchers == ls[l := Holding(c, i).(pc := Record(i))];
    StepReaches(before, step, u);
  }

  lemma RecordStep(c: Config, i: nat)
    requires i < |LockPaths(c)|
    ensures AdvanceLaunch(Holding(c, i).(pc := Record(i)), true) ==
            if i + 1 < |LockPaths(c)| then Holding(c, i + 1) else HoldingAll(c)
  {
    var paths := LockPaths(c);
    hide LockPaths;
    assert paths[..i] + [paths[i]] == paths[..i + 1];
    assert paths[..|paths|] == paths;
  }

  lemma {:induction false} AcquiresAll(ls: seq<Launcher>, l: nat, c: Config, i: nat, u: State)
    requires l < |ls| && Reserves(c) && i < |LockPaths(c)|
    requires Reaches(At(ls, l, HoldingAll(c), Held(c, |LockPaths(c)|, l)), u)
    ensures Reaches(At(ls, l, Holding(c, i), Held(c, i, l)), u)
    decreases |LockPaths(c)| - i
  {
    hide LockPaths, Reaches, Held, Reserves, At, AdvanceLaunch, HoldingAll;
    if i + 1 < |LockPaths(c)| {
      AcquiresAll(ls, l, c, i + 1, u);
    }
    RecordStep(c, i);
    QuietStep(ls, l, Holding(c, i).(pc := Record(i)), Held(c, i + 1, l), u);
    AcquireStep(ls, l, c, i, u);
  }

  // From a full set of reservations to the fork, and on to the wait for the child

  function Forking(c: Config): Launcher {
    HoldingAll(c).(pc := Fork, term := Defer, int_ := Defer)
  }

  lemma Defers(ls: seq<Launcher>, l: nat, c: Config, dirs: map<Path, nat>, u: State)
    requires l < |ls| && !c.dryRun && Reaches(At(ls, l, Forking(c), dirs), u)
    ensures Reaches(At(ls, l, HoldingAll(c), dirs), u)
  {
    hide LockPaths, Reaches, At;
    var x := HoldingAll(c);
    QuietStep(ls, l, x.(pc := DeferInt, term := Defer), dirs, u);
    QuietStep(ls, l, x.(pc := DeferTerm), dirs, u);
    QuietStep(ls, l, x.(pc := SaveStdin), dirs, u);
    QuietStep(ls, l, x, dirs, u);
  }

  lemma Restores(ls: seq<Launcher>, l: nat, c: Config, dirs: map<Path, nat>, u: State)
    requires l < |ls| && Reaches(At(ls, l, Waiting(c), dirs), u)
    ensures Reaches(At(ls, l, Waiting(c).(pc := RestoreTerm, term := Defer, int_ := Defer), dirs), u)
  {
    hide LockPaths, Reaches, At;
    QuietStep(ls, l, Waiting(c).(pc := CheckDeferred), dirs, u);
    QuietStep(ls, l, Waiting(c).(pc := RestoreInt, int_ := Defer), dirs, u);
    QuietStep(ls, l, Waiting(c).(pc := RestoreTerm, term := Defer, int_ := Defer), dirs, u);
  }

  lemma Forks(ls: seq<Launcher>, l: nat, c: Config, dirs: map<Path, nat>, u: State)
    requires l < |ls| && Reaches(At(ls, l, Waiting(c), dirs), u)
    ensures Reaches(At(ls, l, Forking(c), dirs), u)
  {
    Restores(ls, l, c, dirs, u);
    hide LockPaths, Reaches, At;
    QuietStep(ls, l, Waiting(c).(pc := CloseStdin, term := Defer, int_ := Defer), dirs, u);
    QuietStep(ls, l, Forking(c).(pc := SetPid, child := Live), dirs, u);
    QuietStep(ls, l, Forking(c), dirs, u);
  }

  /** From the first reservation to a live child. */
  lemma Launches(ls: seq<Launcher>, l: nat, c: Config, u: State)
    requires l < |ls| && Launchable(c)
    requires Reaches(At(ls, l, Waiting(c), Held(c, |LockPaths(c)|, l)), u)
    ensures Reaches(At(ls, l, Fresh(c), map[]), u)
  {
    assert Held(c, 0, l) == map[] && Holding(c, 0) == Fresh(c);
    hide LockPaths, Reaches, Held, At;
    Forks(ls, l, c, Held(c, |LockPaths(c)|, l), u);
    Defers(ls, l, c, Held(c, |LockPaths(c)|, l), u);
    AcquiresAll(ls, l, c, 0, u);
  }

  function ReleaseAt(x: Launcher, forward: bool, k: nat): Launcher {
    x.(pc := if forward then ForwardRelease(k) else CleanupRelease(k))
  }

  lemma ReleaseAdvances(x: Launcher, l: nat, forward: bool, k: nat, dirs: map<Path, nat>)
    requires 0 < k <= |x.locks|
    ensures AdvanceLauncher(ReleaseAt(x, forward, k), true) == ReleaseAt(x, forward, k - 1)
    ensures AdvanceDirs(ReleaseAt(x, forward, k), l, dirs, true) == dirs - {x.locks[k - 1]}
  {
    hide LockPaths, AdvanceLaunch;
  }

  lemma ReleaseStep(ls: seq<Launcher>, l: nat, x: Launcher, forward: bool, k: nat, owner: nat, u: State)
    requires l < |ls| && Reserves(x.config) && x.locks == LockPaths(x.config) && 0 < k <= |x.locks|
    requires Reaches(At(ls, l, ReleaseAt(x, forward, k - 1), Held(x.config, k - 1, owner)), u)
    ensures Reaches(At(ls, l, ReleaseAt(x, forward, k), Held(x.config, k, owner)), u)
  {
    HeldGrows(x.config, k - 1, owner);
    ReleaseAdvances(x, l, forward, k, Held(x.config, k, owner));
    hide LockPaths, Reaches, Held, Launchable, AdvanceLauncher, AdvanceDirs;
    var before := At(ls, l, ReleaseAt(x, forward, k), Held(x.config, k, owner));
    var step := Step(l, Advance(true));
    assert Apply(before, step).launchers == ls[l := ReleaseAt(x, forward, k - 1)];
    StepReaches(before, step, u);
  }

  /** The release loop removes the reservations of the configuration, whoever has made them. */
  lemma {:induction false} ReleasesAll(
    ls: seq<Launcher>, l: nat, x: Launcher, forward: bool, k: nat, owner: nat, u: State)
    requires l < |ls| && Reserves(x.config) && x.locks == LockPaths(x.config) && k <= |x.locks|
    requires Reaches(At(ls, l, ReleaseAt(x, forward, 0), map[]), u)
    ensures Reaches(At(ls, l, ReleaseAt(x, forward, k), Held(x.config, k, owner)), u)
  {
    if k == 0 {
      assert Held(x.config, 0, owner) == map[];
    } else {
      hide LockPaths, Reaches, Held, Launchable, At;
      ReleasesAll(ls, l, x, forward, k - 1, owner, u);
      ReleaseStep(ls, l, x, forward, k, owner, u);
    }
  }

  /** The first signal: the child is waited for, the release loop is at its end, the list is still complete. */
  function Emptied(c: Config): Launcher {
    Waiting(c).(pc := ForwardRelease(0), term := Default, int_ := Default, pidKnown := false, child := Reaped, signals := 1)
  }

  lemma Reaps(ls: seq<Launcher>, l: nat, c: Config, dirs: map<Path, nat>, u: State)
    requires l < |ls| && Reaches(At(ls, l, Emptied(c).(pc := ForwardRelease(|LockPaths(c)|)), dirs), u)
    ensures Reaches(At(ls, l, Waiting(c).(pc := ForwardEnter, child := Exited, signals := 1), dirs), u)
  {
    hide LockPaths, Reaches, At;
    var exited := Waiting(c).(term := Default, int_ := Default, child := Exited, signals := 1);
    QuietStep(ls, l, exited.(pc := ForwardClear, child := Reaped), dirs, u);
    QuietStep(ls, l, exited.(pc := ForwardWait), dirs, u);
    QuietStep(ls, l, exited.(pc := ForwardKill), dirs, u);
    QuietStep(ls, l, Waiting(c).(pc := ForwardEnter, child := Exited, signals := 1), dirs, u);
  }

  lemma FirstSignal(ls: seq<Launcher>, l: nat, c: Config, u: State)
    requires l < |ls| && Launchable(c)
    requires Reaches(At(ls, l, Emptied(c), map[]), u)
    ensures Reaches(At(ls, l, Waiting(c), Held(c, |LockPaths(c)|, l)), u)
  {
    assert Reserves(c);
    hide LockPaths, Reaches, Held, Launchable, At;
    var dirs := Held(c, |LockPaths(c)|, l);
    ReleasesAll(ls, l, Emptied(c), true, |LockPaths(c)|, l, u);
    Reaps(ls, l, c, dirs, u);
    ExitStep(ls, l, Waiting(c).(pc := ForwardEnter, signals := 1), dirs, u);
    SignalStep(ls, l, Waiting(c), dirs, Term, false, u);
  }

  /** The second signal: the EXIT trap has removed every reservation of c again. */
  function EmptiedTwice(c: Config): Launcher {
    Emptied(c).(pc := CleanupRelease(0), exitTrap := false, signals := 2)
  }

  lemma EntersCleanup(ls: seq<Launcher>, l: nat, c: Config, dirs: map<Path, nat>, u: State)
    requires l < |ls| && Reaches(At(ls, l, EmptiedTwice(c).(pc := CleanupRelease(|LockPaths(c)|)), dirs), u)
    ensures Reaches(At(ls, l, Emptied(c), dirs), u)
  {
    hide LockPaths, Reaches, At, AdvanceLaunch, AdvanceForward;
    var x := Emptied(c).(signals := 2);
    QuietStep(ls, l, x.(pc := CleanupKill, exitTrap := false), dirs, u);
    QuietStep(ls, l, x.(pc := CleanupEnter), dirs, u);
    SignalStep(ls, l, Emptied(c), dirs, Term, true, u);
  }

  lemma SecondSignal(ls: seq<Launcher>, l: nat, c: Config, owner: nat, u: State)
    requires l < |ls| && Launchable(c)
    requires Reaches(At(ls, l, EmptiedTwice(c), map[]), u)
    ensures Reaches(At(ls, l, Emptied(c), Held(c, |LockPaths(c)|, owner)), u)
  {
    assert Reserves(c);
    hide LockPaths, Reaches, Held, Launchable, At;
    ReleasesAll(ls, l, EmptiedTwice(c), false, |LockPaths(c)|, owner, u);
    EntersCleanup(ls, l, c, Held(c, |LockPaths(c)|, owner), u);
  }

  /** Three launchers with the same configuration, two signals to the first: the other two end up with a live child each. */
  lemma TwoSignalsCanShare(c: Config)
    requires Launchable(c)
    ensures Reaches(State([Fresh(c), Fresh(c), Fresh(c)], map[]),
                    State([EmptiedTwice(c), Waiting(c), Waiting(c)], Held(c, |LockPaths(c)|, 2)))
  {
    var f, w, e, t := Fresh(c), Waiting(c), Emptied(c), EmptiedTwice(c);
    var n := |LockPaths(c)|;
    var u := State([t, w, w], Held(c, n, 2));
    hide LockPaths, Reaches, Held, Launchable, Fresh, Waiting, Emptied, EmptiedTwice;
    StayReaches(u);
    assert [t, w, f][2 := w] == [t, w, w] && [t, w, f][2 := f] == [t, w, f];
    Launches([t, w, f], 2, c, u);
    assert [t, w, f][0 := t] == [t, w, f] && [t, w, f][0 := e] == [e, w, f];
    SecondSignal([t, w, f], 0, c, 1, u);
    assert [e, f, f][1 := w] == [e, w, f] && [e, f, f][1 := f] == [e, f, f];
    Launches([e, f, f], 1, c, u);
    assert [e, f, f][0 := w] == [w, f, f] && [e, f, f][0 := e] == [e, f, f];
    FirstSignal([e, f, f], 0, c, u);
    assert [f, f, f][0 := w] == [w, f, f] && [f, f, f][0 := f] == [f, f, f];
    Launches([f, f, f], 0, c, u);
  }

  // The other way: one untrapped signal

  /** The shell right after the fork. */
  function Forked(c: Config): Launcher {
    Forking(c).(pc := SetPid, child := Live)
  }

  /** The EXIT trap is about to release, or has released, the reservations of a live child. */
  function Orphaning(c: Config, k: nat): Launcher {
    Forked(c).(pc := CleanupRelease(k), term := Default, int_ := Default, exitTrap := false, untrapped := 1)
  }

  lemma ForksOnly(ls: seq<Launcher>, l: nat, c: Config, u: State)
    requires l < |ls| && Launchable(c)
    requires Reaches(At(ls, l, Forked(c), Held(c, |LockPaths(c)|, l)), u)
    ensures Reaches(At(ls, l, Fresh(c), map[]), u)
  {
    assert Held(c, 0, l) == map[] && Holding(c, 0) == Fresh(c);
    hide LockPaths, Reaches, Held, At;
    QuietStep(ls, l, Forking(c), Held(c, |LockPaths(c)|, l), u);
    Defers(ls, l, c, Held(c, |LockPaths(c)|, l), u);
    AcquiresAll(ls, l, c, 0, u);
  }

  lemma UntrappedSignal(ls: seq<Launcher>, l: nat, c: Config, dirs: map<Path, nat>, u: State)
    requires l < |ls| && Reaches(At(ls, l, Orphaning(c, |LockPaths(c)|), dirs), u)
    ensures Reaches(At(ls, l, Forked(c), dirs), u)
  {
    hide LockPaths, Reaches, At;
    var x := Forked(c).(untrapped := 1);
    QuietStep(ls, l, x.(pc := CleanupKill, exitTrap := false, term := Default, int_ := Default), dirs, u);
    QuietStep(ls, l, x.(pc := CleanupEnter), dirs, u);
    SignalStep(ls, l, Forked(c), dirs, Untrapped, true, u);
  }

  /** One launcher and one signal: its EXIT trap stands before the removal of a live child's reservations. */
  lemma OneUntrappedCanOrphan(ls: seq<Launcher>, l: nat, c: Config, u: State)
    requires l < |ls| && Launchable(c)
    requires Reaches(At(ls, l, Orphaning(c, |LockPaths(c)|), Held(c, |LockPaths(c)|, l)), u)
    ensures Reaches(At(ls, l, Fresh(c), map[]), u)
  {
    hide LockPaths, Reaches, Held, Launchable, At, Orphaning, Forked, Fresh;
    UntrappedSignal(ls, l, c, Held(c, |LockPaths(c)|, l), u);
    ForksOnly(ls, l, c, u);
  }

  /** Two launchers with the same configuration, one untrapped signal to the first: both end up with a live child. */
  lemma OneUntrappedCanShare(c: Config)
    requires Launchable(c)
    ensures Reaches(State([Fresh(c), Fresh(c)], map[]),
                    State([Orphaning(c, 0), Waiting(c)], Held(c, |LockPaths(c)|, 1)))
  {
    var f, w, e := Fresh(c), Waiting(c), Orphaning(c, 0);
    var n := |LockPaths(c)|;
    var u := State([e, w], Held(c, n, 1));
    assert e == ReleaseAt(e, false, 0) && Orphaning(c, n) == ReleaseAt(e, false, n) && e.locks == LockPaths(c) && e.config == c;
    hide LockPaths, Reaches, Held, Launchable, Fresh, Waiting, Orphaning, ReleaseAt;
    StayReaches(u);
    assert [e, f][1 := w] == [e, w] && [e, f][1 := f] == [e, f];
    Launches([e, f], 1, c, u);
    assert [f, f][0 := e] == [e, f] && [f, f][0 := f] == [f, f];
    ReleasesAll([f, f], 0, e, false, n, 0, u);
    OneUntrappedCanOrphan([f, f], 0, c, u);
  }

  // The exact bounds

  /** No launcher gets more than this many TERM and INT, and other signals. */
  ghost predicate AtMostSignals(run: Run, signals: nat, untrapped: nat)
    requires |run.states| > 0
  {
    forall x <- run.states[|run.states| - 1].launchers :: x.signals <= signals && x.untrapped <= untrapped
  }

  ghost predicate NeverShares(s: State) {
    forall l, m | 0 <= l < m < |s.launchers| && Unreaped(s.launchers[l].child) && Unreaped(s.launchers[m].child) ::
      NothingShared(s.launchers[l].config, s.launchers[m].config)
  }

  /** Every run with no more signals than that keeps live children apart in its last state. */
  ghost predicate SafeUpTo(signals: nat, untrapped: nat) {
    forall run: Run :: IsRun(run) && AtMostSignals(run, signals, untrapped) ==> NeverShares(run.states[|run.steps|])
  }

  lemma OneSignalIsSafe(run: Run)
    requires IsRun(run) && AtMostSignals(run, 1, 0)
    ensures NeverShares(run.states[|run.steps|])
  {
    OneSignalIsHarmless(run);
    var s := run.states[|run.steps|];
    hide Apply, Enabled, Init, HazardFree, NothingShared;
    forall l, m | 0 <= l < m < |s.launchers| && Unreaped(s.launchers[l].child) && Unreaped(s.launchers[m].child)
      ensures NothingShared(s.launchers[l].config, s.launchers[m].config)
    {
      LiveChildrenShareNothing(run, |run.steps|, l, m);
    }
  }

  function Example(): Config {
    Config("/q", "/p", "/r", "1", "3", None, false)
  }

  lemma ExampleIsLaunchable()
    ensures Launchable(Example())
  {
    var paths := LockPaths(Example());
    assert paths[0][1] == 'q' && paths[1][1] == 'p' && paths[2][1] == 'r' && paths[3][1] == 'r';
    assert paths[2][3] == 'g' && paths[3][3] == 'c';
    forall i, j | 0 <= i < j < |paths| ensures paths[i] != paths[j] {
    }
  }

  lemma TwoSignalsAreUnsafe() returns (run: Run)
    ensures IsRun(run) && AtMostSignals(run, 2, 0) && !NeverShares(run.states[|run.steps|])
  {
    var c := Example();
    ExampleIsLaunchable();
    TwoSignalsCanShare(c);
    var s := State([Fresh(c), Fresh(c), Fresh(c)], map[]);
    var t := State([EmptiedTwice(c), Waiting(c), Waiting(c)], Held(c, |LockPaths(c)|, 2));
    run :| Connects(run, s, t);
    hide Apply, Enabled, LockPaths, Held;
    assert Init(s);
    assert t.launchers[1].child.Live? && t.launchers[2].child.Live?;
    assert !NothingShared(t.launchers[1].config, t.launchers[2].config);
  }

  lemma OneUntrappedIsUnsafe() returns (run: Run)
    ensures IsRun(run) && AtMostSignals(run, 0, 1) && !NeverShares(run.states[|run.steps|])
  {
    var c := Example();
    ExampleIsLaunchable();
    OneUntrappedCanShare(c);
    var s := State([Fresh(c), Fresh(c)], map[]);
    var t := State([Orphaning(c, 0), Waiting(c)], Held(c, |LockPaths(c)|, 1));
    run :| Connects(run, s, t);
    hide Apply, Enabled, LockPaths, Held;
    assert Init(s);
    assert t.launchers[0].child.Live? && t.launchers[1].child.Live?;
    assert !NothingShared(t.launchers[0].config, t.launchers[1].config);
  }

  /** Live children never share a resource, in whatever run, exactly as long as no launcher gets more than one TERM or
      INT, nor any other signal that runs its EXIT trap. */
  lemma SafeExactlyUpToOneSignal(signals: nat, untrapped: nat)
    ensures SafeUpTo(signals, untrapped) <==> signals <= 1 && untrapped == 0
  {
    hide NeverShares, Apply, Enabled, Init;
    if signals <= 1 && untrapped == 0 {
      forall run: Run | IsRun(run) && AtMostSignals(run, signals, untrapped)
        ensures NeverShares(run.states[|run.steps|])
      {
        OneSignalIsSafe(run);
      }
    } else if untrapped > 0 {
      var run := OneUntrappedIsUnsafe();
      assert AtMostSignals(run, signals, untrapped);
    } else {
      var run := TwoSignalsAreUnsafe();
      assert AtMostSignals(run, signals, untrapped);
    }
  }

  /** The last step of the run takes a reservation away while the child it was made for has not been waited for. */
  ghost predicate LastRemovalIsEarly(run: Run)
    requires IsRun(run) && |run.steps| > 0
  {
    var i := |run.steps| - 1;
    && (exists path :: path in run.states[i].dirs && path !in run.states[i + 1].dirs)
    && Unreaped(run.states[i].launchers[run.steps[i].l].child)
  }

  /** Whatever the number of TERM and INT, with no more than this many other signals for each launcher no run ends in
      such a removal. */
  ghost predicate ReapsFirstUpTo(untrapped: nat) {
    forall run: Run, signals: nat | IsRun(run) && |run.steps| > 0 && AtMostSignals(run, signals, untrapped) ::
      !LastRemovalIsEarly(run)
  }

  lemma OrphaningIsReached(c: Config)
    requires Launchable(c)
    ensures Reaches(State([Fresh(c)], map[]), State([Orphaning(c, |LockPaths(c)|)], Held(c, |LockPaths(c)|, 0)))
  {
    var n := |LockPaths(c)|;
    hide LockPaths, Reaches, Held, Launchable, Orphaning, Fresh;
    var t := State([Orphaning(c, n)], Held(c, n, 0));
    StayReaches(t);
    assert [Fresh(c)][0 := Orphaning(c, n)] == t.launchers && [Fresh(c)][0 := Fresh(c)] == [Fresh(c)];
    OneUntrappedCanOrphan([Fresh(c)], 0, c, t);
  }

  lemma ExtendPath(path: Run, s: State, t: State, step: Step) returns (run: Run)
    requires Connects(path, s, t) && Init(s) && Enabled(t, step)
    ensures IsRun(run) && |run.steps| == |path.steps| + 1 && run.steps[|path.steps|] == step
    ensures run.states[|path.steps|] == t && run.states[|path.steps| + 1] == Apply(t, step)
  {
    hide Apply, Enabled, Init;
    run := Run(path.states + [Apply(t, step)], path.steps + [step]);
    forall i | 0 <= i < |run.steps|
      ensures Enabled(run.states[i], run.steps[i]) && run.states[i + 1] == Apply(run.states[i], run.steps[i])
    {
      if i < |path.steps| {
        assert run.states[i] == path.states[i] && run.steps[i] == path.steps[i];
        assert run.states[i + 1] == path.states[i + 1];
      }
    }
  }

  lemma UntrappedRemovesEarly() returns (run: Run)
    ensures IsRun(run) && |run.steps| > 0 && AtMostSignals(run, 0, 1) && LastRemovalIsEarly(run)
  {
    var c := Example();
    ExampleIsLaunchable();
    OrphaningIsReached(c);
    EarlyStep(c);
    var s, t := State([Fresh(c)], map[]), State([Orphaning(c, |LockPaths(c)|)], Held(c, |LockPaths(c)|, 0));
    var path: Run :| Connects(path, s, t);
    assert Init(s);
    hide Apply, Enabled, LockPaths, Held, Orphaning, Launchable, Init, Connects;
    run := ExtendPath(path, s, t, Step(0, Advance(true)));
  }

  lemma EarlyStep(c: Config)
    requires Launchable(c)
    ensures var n := |LockPaths(c)|; var t := State([Orphaning(c, n)], Held(c, n, 0)); var step := Step(0, Advance(true));
            && Enabled(t, step)
            && LockPaths(c)[n - 1] in t.dirs && LockPaths(c)[n - 1] !in Apply(t, step).dirs
            && Unreaped(t.launchers[0].child)
            && Apply(t, step).launchers == [Orphaning(c, n - 1)]
            && (forall x <- Apply(t, step).launchers :: x.signals == 0 && x.untrapped == 1)
  {
    var n := |LockPaths(c)|;
    assert LockPaths(c)[..n] == LockPaths(c);
    hide LockPaths, AdvanceLaunch;
  }

  /** A launcher gives reservations up only before it has forked or after it has waited for its child, whatever the
      number of TERM and INT, exactly as long as no other signal comes. */
  lemma ReapsFirstExactlyWithoutUntrapped(untrapped: nat)
    ensures ReapsFirstUpTo(untrapped) <==> untrapped == 0
  {
    if untrapped == 0 {
      forall run: Run, signals: nat | IsRun(run) && |run.steps| > 0 && AtMostSignals(run, signals, 0)
        ensures !LastRemovalIsEarly(run)
      {
        TrappedSignalsOrphanNobody(run);
        if LastRemovalIsEarly(run) {
          var i := |run.steps| - 1;
          var path :| path in run.states[i].dirs && path !in run.states[i + 1].dirs;
          RemovalFollowsReaping(run, i, path);
        }
      }
    } else {
      hide LastRemovalIsEarly, Apply, Enabled, Init;
      var run := UntrappedRemovesEarly();
      assert AtMostSignals(run, 0, untrapped);
    }
  }
}
