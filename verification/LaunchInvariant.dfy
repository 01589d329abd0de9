/** The inductive invariant of the launch reservations. */
module LaunchInvariant {
  import opened Launch

  predicate BeforeFork(pc: Pc) {
    pc.Acquire? || pc.Record? || pc.AllHeld? || pc.SaveStdin? || pc.DeferTerm? || pc.DeferInt? || pc.Fork?
  }

  predicate Releasing(pc: Pc) {
    pc.CleanupRelease? || pc.ForwardRelease? || pc.ForwardUntrap? || pc.Ended?
  }

  predicate Unreaped(child: Child) {
    child.Live? || child.Exited?
  }

  /** How many of its recorded reservations the launcher still has to own. */
  function Guarded(x: Launcher): nat {
    match x.pc
    case CleanupRelease(k) => k
    case ForwardRelease(k) => k
    case ForwardUntrap | Ended => 0
    case Killed => if Unreaped(x.child) then |x.locks| else 0
    case _ => |x.locks|
  }

  predicate FirstWanted(config: Config, locks: seq<Path>) {
    |locks| <= |LockPaths(config)| && locks == LockPaths(config)[..|locks|]
  }

  /** The recorded reservations are the first of the ones it wants, all of them from the last acquisition on. */
  ghost predicate LocksFit(x: Launcher) {
    && FirstWanted(x.config, x.locks)
    && Guarded(x) <= |x.locks|
    && (x.pc.Acquire? || x.pc.Record? ==> x.pc.i == |x.locks| < |LockPaths(x.config)|)
    && (InLaunch(x.pc) && !x.pc.Acquire? && !x.pc.Record? ==> |x.locks| == |LockPaths(x.config)|)
    && (x.pc.ForwardUntrap? ==> x.locks == [])
  }

  ghost predicate TrapsFit(x: Launcher) {
    && (x.pc.Fork? || x.pc.SetPid? ==> x.term.Defer? && x.int_.Defer?)
    && (x.pc.DeferInt? ==> x.term.Defer?)
    && (InLaunch(x.pc) ==> !x.term.Default? && !x.int_.Default? && x.exitTrap)
    && ((InCleanup(x.pc) && !x.pc.CleanupEnter?) || (InForward(x.pc) && !x.pc.ForwardEnter?) ==>
          x.term.Default? && x.int_.Default?)
    && (InCleanup(x.pc) && !x.pc.CleanupEnter? ==> !x.exitTrap)
  }

  /** While the shell lives, a child that nobody has waited for is known by its pid, except right after the fork, and its
      reservations are complete. */
  ghost predicate ChildFits(x: Launcher) {
    && (BeforeFork(x.pc) <==> InLaunch(x.pc) && x.child.NotForked?)
    && (x.child.NotForked? ==> !x.pidKnown)
    && (Unreaped(x.child) ==>
          |x.locks| == |LockPaths(x.config)| && (x.pidKnown || x.pc.SetPid? || x.pc.Killed?) && !Releasing(x.pc))
    && (Releasing(x.pc) ==> !x.pidKnown)
    && (x.pc.ClearPid? || x.pc.CleanupClear? || x.pc.ForwardClear? ==> x.child.Reaped?)
    && (x.pc.CleanupWait? || x.pc.ForwardWait? ==> x.pidKnown)
  }

  /** The launcher's own variables fit together, whatever happens. */
  ghost predicate ShellFits(x: Launcher) {
    LocksFit(x) && TrapsFit(x)
  }

  /** And they fit its child. */
  ghost predicate LauncherFits(x: Launcher) {
    ShellFits(x) && ChildFits(x)
  }

  /** It owns what it has to: its recorded reservations, and the one it has just made. */
  ghost predicate OwnsReservations(x: Launcher, l: nat, dirs: map<Path, nat>)
    requires LocksFit(x)
  {
    && (forall j | 0 <= j < Guarded(x) :: x.locks[j] in dirs && dirs[x.locks[j]] == l)
    && (forall i, j | 0 <= i < j < |x.locks| :: x.locks[i] != x.locks[j])
    && (x.pc.Record? ==>
          var path := LockPaths(x.config)[x.pc.i]; path in dirs && dirs[path] == l && path !in x.locks)
  }

  ghost predicate ShellsFit(s: State) {
    forall l | 0 <= l < |s.launchers| :: ShellFits(s.launchers[l])
  }

  ghost predicate AllFit(s: State) {
    forall l | 0 <= l < |s.launchers| :: LauncherFits(s.launchers[l])
  }

  ghost predicate Inv(s: State) {
    AllFit(s) && forall l | 0 <= l < |s.launchers| :: OwnsReservations(s.launchers[l], l, s.dirs)
  }

  lemma InitEstablishes(s: State)
    requires Init(s)
    ensures Inv(s)
  {}

  /** What one launcher does to the directories: makes one that was free, or removes one that it owns. */
  ghost predicate TouchesOnlyOwn(l: nat, before: map<Path, nat>, after: map<Path, nat>) {
    && (forall path <- before :: before[path] != l ==> path in after && after[path] == before[path])
    && (forall path <- after :: path in before || after[path] == l)
  }

  lemma RecordLocksFit(x: Launcher, ok: bool)
    requires LocksFit(x) && x.pc.Record?
    ensures LocksFit(AdvanceLaunch(x, ok))
  {
    var paths := LockPaths(x.config);
    hide LockPaths;
    assert paths[..|x.locks| + 1] == paths[..|x.locks|] + [paths[|x.locks|]];
  }

  lemma RecordChildFits(x: Launcher, ok: bool)
    requires LocksFit(x) && ChildFits(x) && x.pc.Record?
    ensures ChildFits(AdvanceLaunch(x, ok))
  {
    hide LockPaths, FirstWanted;
  }

  lemma LaunchLocksFit(x: Launcher, ok: bool)
    requires LocksFit(x) && InLaunch(x.pc) && !x.pc.Record?
    ensures LocksFit(AdvanceLaunch(x, ok))
  {
    hide LockPaths, FirstWanted;
  }

  lemma LaunchTrapsFit(x: Launcher, ok: bool)
    requires LocksFit(x) && TrapsFit(x) && InLaunch(x.pc)
    ensures TrapsFit(AdvanceLaunch(x, ok))
  {
    hide LockPaths, FirstWanted;
  }

  lemma LaunchChildFits(x: Launcher, ok: bool)
    requires LocksFit(x) && ChildFits(x) && InLaunch(x.pc) && !x.pc.Record?
    ensures ChildFits(AdvanceLaunch(x, ok))
  {
    hide LockPaths, FirstWanted;
  }

  lemma CleanupLocksFit(x: Launcher)
    requires LocksFit(x) && InCleanup(x.pc)
    ensures LocksFit(AdvanceCleanup(x))
  {
    assert FirstWanted(x.config, []);
    hide LockPaths, FirstWanted;
  }

  lemma CleanupTrapsFit(x: Launcher)
    requires LocksFit(x) && TrapsFit(x) && InCleanup(x.pc)
    ensures TrapsFit(AdvanceCleanup(x))
  {
    hide LockPaths, FirstWanted;
  }

  lemma CleanupChildFits(x: Launcher)
    requires LocksFit(x) && ChildFits(x) && InCleanup(x.pc)
    ensures ChildFits(AdvanceCleanup(x))
  {
    hide LockPaths, FirstWanted;
  }

  lemma ForwardLocksFit(x: Launcher)
    requires LocksFit(x) && InForward(x.pc)
    ensures LocksFit(AdvanceForward(x))
  {
    assert FirstWanted(x.config, []);
    hide LockPaths, FirstWanted;
  }

  lemma ForwardTrapsFit(x: Launcher)
    requires LocksFit(x) && TrapsFit(x) && InForward(x.pc)
    ensures TrapsFit(AdvanceForward(x))
  {
    hide LockPaths, FirstWanted;
  }

  lemma ForwardChildFits(x: Launcher)
    requires LocksFit(x) && ChildFits(x) && InForward(x.pc)
    ensures ChildFits(AdvanceForward(x))
  {
    hide LockPaths, FirstWanted;
  }

  lemma AdvanceShellFits(x: Launcher, ok: bool)
    requires ShellFits(x) && Running(x)
    ensures ShellFits(AdvanceLauncher(x, ok))
  {
    hide AdvanceLaunch, AdvanceCleanup, AdvanceForward, LockPaths, TrapsFit;
    if InLaunch(x.pc) {
      if x.pc.Record? {
        RecordLocksFit(x, ok);
      } else {
        LaunchLocksFit(x, ok);
      }
      LaunchTrapsFit(x, ok);
    } else if InCleanup(x.pc) {
      CleanupLocksFit(x);
      CleanupTrapsFit(x);
    } else {
      ForwardLocksFit(x);
      ForwardTrapsFit(x);
    }
  }

  lemma AdvanceChildFits(x: Launcher, ok: bool)
    requires LauncherFits(x) && Running(x)
    ensures ChildFits(AdvanceLauncher(x, ok))
  {
    hide AdvanceLaunch, AdvanceCleanup, AdvanceForward, LockPaths, TrapsFit, ChildFits;
    if x.pc.Record? {
      RecordChildFits(x, ok);
    } else if InLaunch(x.pc) {
      LaunchChildFits(x, ok);
    } else if InCleanup(x.pc) {
      CleanupChildFits(x);
    } else {
      ForwardChildFits(x);
    }
  }

  lemma AcquireOwns(x: Launcher, l: nat, dirs: map<Path, nat>, ok: bool)
    requires LocksFit(x) && OwnsReservations(x, l, dirs) && x.pc.Acquire?
    requires ok ==> LockPaths(x.config)[x.pc.i] !in dirs
    ensures OwnsReservations(AdvanceLaunch(x, ok), l, AdvanceDirs(x, l, dirs, ok))
    ensures TouchesOnlyOwn(l, dirs, AdvanceDirs(x, l, dirs, ok))
  {
    hide LockPaths;
  }

  lemma RecordOwns(x: Launcher, l: nat, dirs: map<Path, nat>, ok: bool)
    requires LocksFit(x) && OwnsReservations(x, l, dirs) && x.pc.Record?
    ensures OwnsReservations(AdvanceLaunch(x, ok), l, dirs)
  {
    hide LockPaths;
  }

  lemma ReleaseOwns(x: Launcher, l: nat, dirs: map<Path, nat>, ok: bool)
    requires LocksFit(x) && OwnsReservations(x, l, dirs) && (x.pc.CleanupRelease? || x.pc.ForwardRelease?)
    ensures OwnsReservations(AdvanceLauncher(x, ok), l, AdvanceDirs(x, l, dirs, ok))
    ensures TouchesOnlyOwn(l, dirs, AdvanceDirs(x, l, dirs, ok))
  {
    hide LockPaths;
  }

  // Every other command leaves the recorded reservations alone, and guards no more of them than before.

  lemma LaunchKeepsReservations(x: Launcher, ok: bool)
    requires LocksFit(x) && InLaunch(x.pc) && !x.pc.Acquire? && !x.pc.Record?
    ensures var y := AdvanceLaunch(x, ok); y.locks == x.locks && !y.pc.Record? && Guarded(y) == Guarded(x)
  {
    hide LockPaths;
  }

  lemma EndingKeepsReservations(x: Launcher, ok: bool)
    requires LocksFit(x) && Running(x) && !InLaunch(x.pc) && !x.pc.CleanupRelease? && !x.pc.ForwardRelease?
    ensures var y := AdvanceLauncher(x, ok); y.locks == x.locks && !y.pc.Record? && Guarded(y) <= Guarded(x)
  {
    hide LockPaths, AdvanceLaunch;
  }

  lemma AdvanceOwns(x: Launcher, l: nat, dirs: map<Path, nat>, ok: bool)
    requires LocksFit(x) && OwnsReservations(x, l, dirs) && Running(x)
    requires LocksFit(AdvanceLauncher(x, ok))
    requires ok && x.pc.Acquire? ==> LockPaths(x.config)[x.pc.i] !in dirs
    ensures OwnsReservations(AdvanceLauncher(x, ok), l, AdvanceDirs(x, l, dirs, ok))
    ensures TouchesOnlyOwn(l, dirs, AdvanceDirs(x, l, dirs, ok))
  {
    if x.pc.Acquire? {
      AcquireOwns(x, l, dirs, ok);
    } else if x.pc.Record? {
      RecordOwns(x, l, dirs, ok);
    } else if x.pc.CleanupRelease? || x.pc.ForwardRelease? {
      ReleaseOwns(x, l, dirs, ok);
    } else {
      if InLaunch(x.pc) {
        LaunchKeepsReservations(x, ok);
      } else {
        EndingKeepsReservations(x, ok);
      }
      hide AdvanceLaunch, AdvanceCleanup, AdvanceForward, LockPaths, LocksFit, Guarded;
    }
  }

  lemma DeliverLocksFit(x: Launcher, signal: Signal, runsExitTrap: bool)
    requires LocksFit(x) && Running(x)
    ensures LocksFit(DeliverTo(x, signal, runsExitTrap))
  {
    hide LockPaths, FirstWanted;
  }

  lemma DeliverTrapsFit(x: Launcher, signal: Signal, runsExitTrap: bool)
    requires TrapsFit(x) && Running(x)
    ensures TrapsFit(DeliverTo(x, signal, runsExitTrap))
  {}

  lemma DeliverShellFits(x: Launcher, signal: Signal, runsExitTrap: bool)
    requires ShellFits(x) && Running(x)
    ensures ShellFits(DeliverTo(x, signal, runsExitTrap))
  {
    hide LockPaths, LocksFit, TrapsFit, DeliverTo;
    DeliverLocksFit(x, signal, runsExitTrap);
    DeliverTrapsFit(x, signal, runsExitTrap);
  }

  lemma DeliverChildFits(x: Launcher, signal: Signal, runsExitTrap: bool)
    requires LauncherFits(x) && Running(x) && !(runsExitTrap && x.pc.SetPid?)
    ensures ChildFits(DeliverTo(x, signal, runsExitTrap))
  {
    hide LockPaths, FirstWanted;
  }

  lemma DeliverOwns(x: Launcher, l: nat, dirs: map<Path, nat>, signal: Signal, runsExitTrap: bool)
    requires LauncherFits(x) && OwnsReservations(x, l, dirs) && Running(x)
    requires runsExitTrap ==> DispositionOf(x, signal).Default? && x.exitTrap && !HalfReleased(x)
    requires LocksFit(DeliverTo(x, signal, runsExitTrap))
    ensures OwnsReservations(DeliverTo(x, signal, runsExitTrap), l, dirs)
  {
    hide LockPaths;
    assert DeliverTo(x, signal, runsExitTrap).locks == x.locks;
    assert Guarded(DeliverTo(x, signal, runsExitTrap)) <= Guarded(x);
  }

  /** Each launcher's own variables keep fitting, whatever signal arrives when. */
  lemma StepKeepsShells(s: State, step: Step)
    requires ShellsFit(s) && Enabled(s, step)
    ensures ShellsFit(Apply(s, step))
  {
    var x := s.launchers[step.l];
    match step.action {
      case Advance(choice) => AdvanceShellFits(x, Succeeds(x, s.dirs, choice));
      case Deliver(signal, runsExitTrap) => DeliverShellFits(x, signal, runsExitTrap);
      case ChildExits => ExitFits(x);
    }
    hide LockPaths, AdvanceLauncher, DeliverTo, LocksFit, TrapsFit;
  }

  /** And they keep fitting its child, unless a signal runs the EXIT trap when the pid has not been noted. */
  lemma StepKeepsFits(s: State, step: Step)
    requires AllFit(s) && Enabled(s, step) && !Orphans(s, step)
    ensures AllFit(Apply(s, step))
  {
    StepKeepsShells(s, step);
    var x := s.launchers[step.l];
    match step.action {
      case Advance(choice) => AdvanceChildFits(x, Succeeds(x, s.dirs, choice));
      case Deliver(signal, runsExitTrap) => DeliverChildFits(x, signal, runsExitTrap);
      case ChildExits => ExitFits(x);
    }
    hide LockPaths, AdvanceLauncher, DeliverTo, LocksFit, TrapsFit, ChildFits;
    assert forall l | 0 <= l < |s.launchers| :: ShellFits(Apply(s, step).launchers[l]);
  }

  lemma ExitFits(x: Launcher)
    requires ShellFits(x) && x.child.Live?
    ensures ShellFits(x.(child := Exited)) && (ChildFits(x) ==> ChildFits(x.(child := Exited)))
  {
    hide LockPaths;
  }

  lemma OthersKeepOwning(x: Launcher, other: nat, l: nat, before: map<Path, nat>, after: map<Path, nat>)
    requires LocksFit(x) && OwnsReservations(x, other, before) && TouchesOnlyOwn(l, before, after) && other != l
    ensures OwnsReservations(x, other, after)
  {
    hide LockPaths, Guarded;
  }

  lemma ExitKeepsOwning(x: Launcher, l: nat, dirs: map<Path, nat>)
    requires LocksFit(x) && OwnsReservations(x, l, dirs) && x.child.Live?
    ensures LocksFit(x.(child := Exited)) && OwnsReservations(x.(child := Exited), l, dirs)
  {
    hide LockPaths;
  }

  /** The launcher that moves owns afterwards what it has to own then. */
  lemma ActorOwns(s: State, step: Step)
    requires Inv(s) && Enabled(s, step) && !Hazard(s, step) && AllFit(Apply(s, step))
    ensures OwnsReservations(Apply(s, step).launchers[step.l], step.l, Apply(s, step).dirs)
    ensures TouchesOnlyOwn(step.l, s.dirs, Apply(s, step).dirs)
  {
    var l := step.l;
    var x := s.launchers[l];
    assert LauncherFits(x) && LauncherFits(Apply(s, step).launchers[l]);
    hide LockPaths, AdvanceLauncher, AdvanceDirs, DeliverTo, TrapsFit, ChildFits, Guarded, OwnsReservations, AllFit;
    match step.action {
      case Advance(choice) => AdvanceOwns(x, l, s.dirs, Succeeds(x, s.dirs, choice));
      case Deliver(signal, runsExitTrap) => DeliverOwns(x, l, s.dirs, signal, runsExitTrap);
      case ChildExits => ExitKeepsOwning(x, l, s.dirs);
    }
  }

  /** Each launcher keeps owning what it has to, as long as no signal runs the EXIT trap at one of those two places. */
  lemma StepKeepsInv(s: State, step: Step)
    requires Inv(s) && Enabled(s, step) && !Hazard(s, step)
    ensures Inv(Apply(s, step))
  {
    StepKeepsFits(s, step);
    ActorOwns(s, step);
    var t := Apply(s, step);
    hide LockPaths, AdvanceLauncher, AdvanceDirs, DeliverTo, LocksFit, TrapsFit, ChildFits, OwnsReservations, TouchesOnlyOwn;
    forall other | 0 <= other < |t.launchers| ensures OwnsReservations(t.launchers[other], other, t.dirs) {
      if other != step.l {
        assert t.launchers[other] == s.launchers[other];
        OthersKeepOwning(s.launchers[other], other, step.l, s.dirs, t.dirs);
      }
    }
  }

  lemma {:induction false} RunKeepsShells(run: Run, i: nat)
    requires IsRun(run) && i < |run.states|
    ensures ShellsFit(run.states[i])
  {
    if i == 0 {
      InitEstablishes(run.states[0]);
    } else {
      RunKeepsShells(run, i - 1);
      StepKeepsShells(run.states[i - 1], run.steps[i - 1]);
    }
  }

  lemma {:induction false} RunKeepsFits(run: Run, i: nat)
    requires IsRun(run) && OrphanFree(run) && i < |run.states|
    ensures AllFit(run.states[i])
  {
    if i == 0 {
      InitEstablishes(run.states[0]);
    } else {
      RunKeepsFits(run, i - 1);
      StepKeepsFits(run.states[i - 1], run.steps[i - 1]);
    }
  }

  lemma {:induction false} RunKeepsInv(run: Run, i: nat)
    requires IsRun(run) && HazardFree(run) && i < |run.states|
    ensures Inv(run.states[i])
  {
    if i == 0 {
      InitEstablishes(run.states[0]);
    } else {
      RunKeepsInv(run, i - 1);
      StepKeepsInv(run.states[i - 1], run.steps[i - 1]);
    }
  }
}
