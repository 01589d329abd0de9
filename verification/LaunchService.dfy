/** What becomes of a launcher and of the signals it gets: deferred ones are acted on, and a launcher that is left alone
    leaves nothing behind. */
module LaunchService {
  import opened Launch
  import opened LaunchInvariant
  import opened LaunchHazard

  // No signal is lost around the fork

  predicate BeforeDefer(pc: Pc) {
    pc.Acquire? || pc.Record? || pc.AllHeld? || pc.SaveStdin? || pc.DeferTerm?
  }

  /** On the main line a signal that has come is noted, and the launcher has not gone past the point where it looks. */
  predicate SignalsFit(x: Launcher) {
    && (InLaunch(x.pc) && x.signals > 0 ==> x.deferred && !x.pc.WaitChild? && !x.pc.ClearPid?)
    && (BeforeDefer(x.pc) || x.pc.CheckDeferred? || x.pc.WaitChild? || x.pc.ClearPid? ==> x.term.Forward? && x.int_.Forward?)
    && (x.pc.DeferInt? ==> x.int_.Forward?)
    && (x.pc.CloseStdin? || x.pc.RestoreTerm? ==> x.term.Defer? && x.int_.Defer?)
    && (x.pc.RestoreInt? ==> x.term.Forward? && x.int_.Defer?)
  }

  lemma AdvanceKeepsSignals(x: Launcher, ok: bool)
    requires ShellFits(x) && SignalsFit(x) && InLaunch(x.pc)
    ensures SignalsFit(AdvanceLaunch(x, ok))
  {
    hide LockPaths, FirstWanted, LocksFit;
  }

  lemma OutsideFits(x: Launcher)
    requires !InLaunch(x.pc)
    ensures SignalsFit(x)
  {}

  lemma CleanupStaysOutside(x: Launcher)
    requires !InLaunch(x.pc)
    ensures !InLaunch(AdvanceCleanup(x).pc)
  {}

  lemma ForwardStaysOutside(x: Launcher)
    requires !InLaunch(x.pc)
    ensures !InLaunch(AdvanceForward(x).pc)
  {}

  lemma EndingHasNoSignals(x: Launcher)
    requires !InLaunch(x.pc)
    ensures SignalsFit(AdvanceCleanup(x)) && SignalsFit(AdvanceForward(x))
  {
    hide AdvanceCleanup, AdvanceForward, SignalsFit, InLaunch;
    CleanupStaysOutside(x);
    ForwardStaysOutside(x);
    OutsideFits(AdvanceCleanup(x));
    OutsideFits(AdvanceForward(x));
  }

  lemma DeliverKeepsSignals(x: Launcher, signal: Signal, runsExitTrap: bool)
    requires ShellFits(x) && SignalsFit(x) && Running(x)
    ensures SignalsFit(DeliverTo(x, signal, runsExitTrap))
  {
    hide LockPaths, FirstWanted, LocksFit;
  }

  lemma StepKeepsSignals(s: State, step: Step)
    requires Enabled(s, step) && ShellsFit(s) && forall x <- s.launchers :: SignalsFit(x)
    ensures forall x <- Apply(s, step).launchers :: SignalsFit(x)
  {
    var x := s.launchers[step.l];
    assert ShellFits(x) && SignalsFit(x);
    match step.action {
      case Advance(choice) =>
        if InLaunch(x.pc) {
          AdvanceKeepsSignals(x, Succeeds(x, s.dirs, choice));
        } else {
          EndingHasNoSignals(x);
        }
      case Deliver(signal, runsExitTrap) => DeliverKeepsSignals(x, signal, runsExitTrap);
      case ChildExits =>
    }
    hide AdvanceLaunch, AdvanceCleanup, AdvanceForward, DeliverTo, AdvanceDirs, LockPaths, ShellFits, ShellsFit;
  }

  lemma {:induction false} RunKeepsSignals(run: Run, i: nat)
    requires IsRun(run) && i < |run.states|
    ensures forall x <- run.states[i].launchers :: SignalsFit(x)
  {
    if i > 0 {
      RunKeepsSignals(run, i - 1);
      RunKeepsShells(run, i - 1);
      hide Apply, Enabled, SignalsFit, ShellsFit;
      StepKeepsSignals(run.states[i - 1], run.steps[i - 1]);
    }
  }

  /** A launcher that has got a TERM or INT, the window around the fork included, never waits for its child as if nothing
      had come: it goes to forward_signal at once, or at the look for a deferred signal, unless it fails before that. */
  lemma SignalIsNeverLost(run: Run, i: nat, l: nat)
    requires IsRun(run) && i < |run.states| && l < |run.states[i].launchers|
    ensures var x := run.states[i].launchers[l];
            && (x.signals > 0 && InLaunch(x.pc) ==> x.deferred && !x.pc.WaitChild? && !x.pc.ClearPid?)
            && (x.signals > 0 && x.pc.CheckDeferred? ==> AdvanceLauncher(x, true).pc == ForwardEnter)
  {
    RunKeepsSignals(run, i);
    assert run.states[i].launchers[l] in run.states[i].launchers;
  }

  predicate Defers(pc: Pc, signal: Signal) {
    || pc.Fork? || pc.SetPid? || pc.CloseStdin? || pc.RestoreTerm?
    || (pc.DeferInt? && signal.Term?)
    || (pc.RestoreInt? && signal.Int?)
  }

  /** Which of the two traps is set where: on the main line a TERM or INT is noted between the two traps of its own that
      defer it and forward it again, and starts forward_signal everywhere else. */
  lemma EachSignalHasItsTrap(run: Run, i: nat, l: nat, signal: Signal)
    requires IsRun(run) && i < |run.states| && l < |run.states[i].launchers| && !signal.Untrapped?
    requires InLaunch(run.states[i].launchers[l].pc)
    ensures var x := run.states[i].launchers[l]; var counted := x.(signals := x.signals + 1);
            DeliverTo(x, signal, false) ==
              if Defers(x.pc, signal) then counted.(deferred := true) else counted.(pc := ForwardEnter)
  {
    RunKeepsSignals(run, i);
    RunKeepsShells(run, i);
    assert run.states[i].launchers[l] in run.states[i].launchers;
    hide LockPaths, FirstWanted, LocksFit;
  }

  /** A command of the main line that fails ends the shell through its EXIT trap, and has done nothing. */
  lemma FailureEndsTheShell(run: Run, i: nat)
    requires IsRun(run) && i < |run.steps| && run.steps[i].action == Advance(false)
    requires var pc := run.states[i].launchers[run.steps[i].l].pc; pc.Acquire? || pc.SaveStdin? || pc.Fork? || pc.CloseStdin?
    ensures var l := run.steps[i].l; var x := run.states[i].launchers[l];
            run.states[i + 1] == run.states[i].(launchers := run.states[i].launchers[l := x.(pc := CleanupEnter)])
  {
    assert Enabled(run.states[i], run.steps[i]);
    hide LockPaths, AdvanceCleanup, AdvanceForward;
  }

  lemma AdvanceWaitsForExit(x: Launcher, ok: bool)
    requires x.pc.Record? ==> x.pc.i < |LockPaths(x.config)|
    requires x.child.Live? && !x.pc.WaitChild? && !x.pc.CleanupWait? && !x.pc.ForwardWait?
    ensures AdvanceLauncher(x, ok).child.Live?
  {
    hide LockPaths;
  }

  /** No launcher takes a live child for one that it has waited for: only its exit ends its life. */
  lemma LiveChildLivesUntilItExits(run: Run, i: nat, l: nat)
    requires IsRun(run) && i < |run.steps| && l < |run.states[i].launchers| && run.states[i].launchers[l].child.Live?
    ensures l < |run.states[i + 1].launchers|
    ensures run.states[i + 1].launchers[l].child ==
            if run.steps[i] == Step(l, ChildExits) then Exited else Live
  {
    var s, step := run.states[i], run.steps[i];
    assert Enabled(s, step);
    if step.l == l && step.action.Advance? {
      AdvanceWaitsForExit(s.launchers[l], Succeeds(s.launchers[l], s.dirs, step.action.choice));
    }
    hide AdvanceLauncher, LockPaths;
  }

  // A launcher that is left alone

  lemma Failing(ls: seq<Launcher>, l: nat, x: Launcher, dirs: map<Path, nat>, u: State)
    requires l < |ls| && x.pc.Acquire? && x.pc.i < |LockPaths(x.config)| && LockPaths(x.config)[x.pc.i] in dirs
    requires Reaches(At(ls, l, x.(pc := CleanupEnter), dirs), u)
    ensures Reaches(At(ls, l, x, dirs), u)
  {
    hide LockPaths, Reaches;
    var step := Step(l, Advance(true));
    assert Apply(At(ls, l, x, dirs), step).launchers == ls[l := x.(pc := CleanupEnter)];
    StepReaches(At(ls, l, x, dirs), step, u);
  }

  /** The shell at the end: traps, pid and list of reservations are gone. */
  function Over(x: Launcher, child: Child): Launcher {
    x.(pc := Ended, locks := [], term := Default, int_ := Default, exitTrap := false, pidKnown := false, child := child)
  }

  /** From the EXIT trap to the end, with every reservation of the list removed. */
  lemma CleansUp(ls: seq<Launcher>, l: nat, x: Launcher, u: State)
    requires l < |ls| && x.pc.CleanupEnter? && !x.pidKnown && Reserves(x.config) && x.locks == LockPaths(x.config)
    requires Reaches(At(ls, l, Over(x, x.child), map[]), u)
    ensures Reaches(At(ls, l, x, Held(x.config, |x.locks|, l)), u)
  {
    var n := |x.locks|;
    var cleared := x.(exitTrap := false, term := Default, int_ := Default);
    Releases(ls, l, cleared, u);
    hide LockPaths, Reaches, At, Held, Reserves;
    assert Quiet(cleared.(pc := CleanupKill)) && Quiet(x);
    QuietStep(ls, l, cleared.(pc := CleanupKill), Held(x.config, n, l), u);
    QuietStep(ls, l, x, Held(x.config, n, l), u);
  }

  lemma Releases(ls: seq<Launcher>, l: nat, x: Launcher, u: State)
    requires l < |ls| && Reserves(x.config) && x.locks == LockPaths(x.config)
    requires Reaches(At(ls, l, x.(pc := Ended, locks := []), map[]), u)
    ensures Reaches(At(ls, l, x.(pc := CleanupRelease(|x.locks|)), Held(x.config, |x.locks|, l)), u)
  {
    hide LockPaths, Reaches, At, Held, Reserves;
    QuietStep(ls, l, x.(pc := CleanupRelease(0)), map[], u);
    ReleasesAll(ls, l, x, false, |x.locks|, l, u);
  }

  lemma HoldsAll(ls: seq<Launcher>, l: nat, c: Config, u: State)
    requires l < |ls| && Reserves(c) && Reaches(At(ls, l, HoldingAll(c), Held(c, |LockPaths(c)|, l)), u)
    ensures Reaches(At(ls, l, Fresh(c), map[]), u)
  {
    assert Held(c, 0, l) == map[] && Holding(c, 0) == Fresh(c);
    hide LockPaths, Reaches, At, Held, Reserves, HoldingAll;
    AcquiresAll(ls, l, c, 0, u);
  }

  /** Nothing happens to it: it launches, waits, and leaves neither a child nor a reservation behind. */
  lemma LoneLauncherCleansUp(ls: seq<Launcher>, l: nat, c: Config)
    requires l < |ls| && Launchable(c)
    ensures Reaches(At(ls, l, Fresh(c), map[]), At(ls, l, Over(Waiting(c), Reaped), map[]))
  {
    var u := At(ls, l, Over(Waiting(c), Reaped), map[]);
    var x := Waiting(c).(child := Reaped, pidKnown := false, pc := CleanupEnter);
    assert Over(x, Reaped) == Over(Waiting(c), Reaped);
    hide LockPaths, Reaches, At, Held, Reserves, Over;
    StayReaches(u);
    CleansUp(ls, l, x, u);
    var dirs := Held(c, |LockPaths(c)|, l);
    QuietStep(ls, l, Waiting(c).(child := Reaped, pc := ClearPid), dirs, u);
    QuietStep(ls, l, Waiting(c).(child := Exited), dirs, u);
    ExitStep(ls, l, Waiting(c), dirs, u);
    Launches(ls, l, c, u);
  }

  /** A dry run reserves everything, forks nothing, and gives everything back. */
  lemma DryRunCleansUp(ls: seq<Launcher>, l: nat, c: Config)
    requires l < |ls| && Reserves(c) && c.dryRun
    ensures Reaches(At(ls, l, Fresh(c), map[]), At(ls, l, Over(HoldingAll(c), NotForked), map[]))
  {
    var u := At(ls, l, Over(HoldingAll(c), NotForked), map[]);
    var x := HoldingAll(c).(pc := CleanupEnter);
    assert Over(x, NotForked) == Over(HoldingAll(c), NotForked);
    hide LockPaths, Reaches, At, Held, Reserves, Over;
    StayReaches(u);
    CleansUp(ls, l, x, u);
    QuietStep(ls, l, HoldingAll(c), Held(c, |LockPaths(c)|, l), u);
    HoldsAll(ls, l, c, u);
  }

  /** A launcher that finds its first resource taken gives up and touches nothing. */
  lemma ConflictLeavesReservations(ls: seq<Launcher>, l: nat, c: Config, dirs: map<Path, nat>)
    requires l < |ls| && QmpLock(c) in dirs
    ensures Reaches(At(ls, l, Fresh(c), dirs), At(ls, l, Over(Fresh(c), NotForked), dirs))
  {
    var u := At(ls, l, Over(Fresh(c), NotForked), dirs);
    assert LockPaths(c)[0] == QmpLock(c);
    hide LockPaths, Reaches, At;
    StayReaches(u);
    var cleared := Fresh(c).(exitTrap := false, term := Default, int_ := Default);
    QuietStep(ls, l, cleared.(pc := CleanupRelease(0)), dirs, u);
    QuietStep(ls, l, cleared.(pc := CleanupKill), dirs, u);
    QuietStep(ls, l, Fresh(c).(pc := CleanupEnter), dirs, u);
    Failing(ls, l, Fresh(c), dirs, u);
  }

  // A launcher that gets one signal

  /** From forward_signal with a child to the end: the child is waited for and the reservations are gone. */
  lemma ForwardsAndEnds(ls: seq<Launcher>, l: nat, x: Launcher, u: State)
    requires l < |ls| && x.pc.ForwardEnter? && x.pidKnown && x.child.Exited? && Reserves(x.config)
    requires x.locks == LockPaths(x.config)
    requires Reaches(At(ls, l, Over(x, Reaped), map[]), u)
    ensures Reaches(At(ls, l, x, Held(x.config, |x.locks|, l)), u)
  {
    var n := |x.locks|;
    var dirs := Held(x.config, n, l);
    var untrapped := x.(term := Default, int_ := Default);
    var reaped := untrapped.(child := Reaped, pidKnown := false);
    var over := reaped.(pc := ForwardUntrap, locks := []);
    hide LockPaths, Reaches, At, Held, Reserves;
    QuietStep(ls, l, over, map[], u);
    QuietStep(ls, l, reaped.(pc := ForwardRelease(0)), map[], u);
    ReleasesAll(ls, l, reaped, true, n, l, u);
    ReapsForwarding(ls, l, x, dirs, u);
  }

  lemma ReapsForwarding(ls: seq<Launcher>, l: nat, x: Launcher, dirs: map<Path, nat>, u: State)
    requires l < |ls| && x.pc.ForwardEnter? && x.pidKnown && x.child.Exited?
    requires var reaped := x.(term := Default, int_ := Default, child := Reaped, pidKnown := false);
             Reaches(At(ls, l, reaped.(pc := ForwardRelease(|x.locks|)), dirs), u)
    ensures Reaches(At(ls, l, x, dirs), u)
  {
    hide LockPaths, Reaches, At;
    var untrapped := x.(term := Default, int_ := Default);
    QuietStep(ls, l, untrapped.(pc := ForwardClear, child := Reaped), dirs, u);
    QuietStep(ls, l, untrapped.(pc := ForwardWait), dirs, u);
    QuietStep(ls, l, untrapped.(pc := ForwardKill), dirs, u);
    QuietStep(ls, l, x, dirs, u);
  }

  /** A TERM while the launcher waits: it waits for the child, gives everything back and ends. */
  lemma SignalWhileWaiting(ls: seq<Launcher>, l: nat, c: Config)
    requires l < |ls| && Reserves(c)
    ensures Reaches(At(ls, l, Waiting(c), Held(c, |LockPaths(c)|, l)),
                    At(ls, l, Over(Waiting(c), Reaped).(signals := 1), map[]))
  {
    var dirs := Held(c, |LockPaths(c)|, l);
    var x := Waiting(c).(signals := 1, pc := ForwardEnter);
    var u := At(ls, l, Over(x, Reaped), map[]);
    assert Over(x, Reaped) == Over(x.(child := Exited), Reaped) == Over(Waiting(c), Reaped).(signals := 1);
    hide LockPaths, Reaches, At, Held, Reserves, Over;
    StayReaches(u);
    ForwardsAndEnds(ls, l, x.(child := Exited), u);
    ExitStep(ls, l, x, dirs, u);
    SignalStep(ls, l, Waiting(c), dirs, Term, false, u);
  }

  /** A TERM right after the fork, before the pid is noted: it is noted, and acted on as soon as the pid is known. */
  lemma SignalAtTheFork(ls: seq<Launcher>, l: nat, c: Config)
    requires l < |ls| && Reserves(c)
    ensures Reaches(At(ls, l, Forked(c).(deferred := true, signals := 1), Held(c, |LockPaths(c)|, l)),
                    At(ls, l, Over(Waiting(c), Reaped).(signals := 1), map[]))
    ensures DeliverTo(Forked(c), Term, false) == Forked(c).(deferred := true, signals := 1)
  {
    var dirs := Held(c, |LockPaths(c)|, l);
    var x := Waiting(c).(signals := 1);
    var u := At(ls, l, Over(x, Reaped), map[]);
    assert Over(x, Reaped) == Over(Waiting(c), Reaped).(signals := 1);
    assert Over(x.(child := Exited, pc := ForwardEnter), Reaped) == Over(x, Reaped);
    hide LockPaths, Reaches, At, Held, Reserves, Over;
    StayReaches(u);
    ForwardsAndEnds(ls, l, x.(child := Exited, pc := ForwardEnter), u);
    ExitStep(ls, l, x.(pc := ForwardEnter), dirs, u);
    RestoresDeferred(ls, l, c, dirs, u);
  }

  lemma RestoresDeferred(ls: seq<Launcher>, l: nat, c: Config, dirs: map<Path, nat>, u: State)
    requires l < |ls| && Reaches(At(ls, l, Waiting(c).(signals := 1, pc := ForwardEnter), dirs), u)
    ensures Reaches(At(ls, l, Forked(c).(deferred := true, signals := 1), dirs), u)
  {
    hide LockPaths, Reaches, At;
    var x := Waiting(c).(signals := 1, deferred := true);
    var deferring := x.(term := Defer, int_ := Defer);
    QuietStep(ls, l, x.(pc := CheckDeferred), dirs, u);
    QuietStep(ls, l, x.(pc := RestoreInt, int_ := Defer), dirs, u);
    QuietStep(ls, l, deferring.(pc := RestoreTerm), dirs, u);
    QuietStep(ls, l, deferring.(pc := CloseStdin), dirs, u);
    QuietStep(ls, l, Forked(c).(deferred := true, signals := 1), dirs, u);
  }

  /** An untrapped signal while the launcher waits, so that the EXIT trap knows the pid: again nothing is left. */
  lemma UntrappedWhileWaiting(ls: seq<Launcher>, l: nat, c: Config)
    requires l < |ls| && Reserves(c)
    ensures Reaches(At(ls, l, Waiting(c).(pc := CleanupEnter, untrapped := 1), Held(c, |LockPaths(c)|, l)),
                    At(ls, l, Over(Waiting(c), Reaped).(untrapped := 1), map[]))
    ensures DeliverTo(Waiting(c), Untrapped, true) == Waiting(c).(pc := CleanupEnter, untrapped := 1)
  {
    var dirs := Held(c, |LockPaths(c)|, l);
    var x := Waiting(c).(untrapped := 1, exitTrap := false, term := Default, int_ := Default);
    var reaped := x.(child := Reaped, pidKnown := false);
    var u := At(ls, l, Over(x, Reaped), map[]);
    assert Over(x, Reaped) == Over(Waiting(c), Reaped).(untrapped := 1);
    assert reaped.(pc := Ended, locks := []) == Over(x, Reaped);
    hide LockPaths, Reaches, At, Held, Reserves, Over;
    StayReaches(u);
    Releases(ls, l, reaped, u);
    CleanupReaps(ls, l, c, dirs, u);
  }

  lemma CleanupReaps(ls: seq<Launcher>, l: nat, c: Config, dirs: map<Path, nat>, u: State)
    requires l < |ls|
    requires var x := Waiting(c).(untrapped := 1, exitTrap := false, term := Default, int_ := Default);
             Reaches(At(ls, l, x.(child := Reaped, pidKnown := false, pc := CleanupRelease(|x.locks|)), dirs), u)
    ensures Reaches(At(ls, l, Waiting(c).(pc := CleanupEnter, untrapped := 1), dirs), u)
  {
    hide LockPaths, Reaches, At;
    var x := Waiting(c).(untrapped := 1, exitTrap := false, term := Default, int_ := Default);
    QuietStep(ls, l, x.(child := Reaped, pc := CleanupClear), dirs, u);
    QuietStep(ls, l, x.(child := Exited, pc := CleanupWait), dirs, u);
    ExitStep(ls, l, x.(pc := CleanupWait), dirs, u);
    QuietStep(ls, l, x.(pc := CleanupKill), dirs, u);
    QuietStep(ls, l, Waiting(c).(pc := CleanupEnter, untrapped := 1), dirs, u);
  }
}
