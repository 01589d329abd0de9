/** Any number of concurrent launchers and the reservation directories they compete for.

  One launcher is the script from its first `trap` on; one `Pc` is the gap in front of one
  of its commands, and a signal may be handled in any such gap, as the shell does. What a
  command's own outcome decides (mkdir or rmdir failing for an outside reason, a file
  descriptor that cannot be duplicated, a failing fork) is the `choice` of the step.
*/
module Launch {
  import opened Common

  type Path = string

  /** What one launcher is about to use: canonical paths, decimal ports and ids, the disk's device and inode. */
  datatype Config = Config(
    qmp: Path, pidfile: Path, root: Path, gdbPort: string, guestCid: string, disk: Option<string>, dryRun: bool)

  const SUFFIX := ".fovea-launch"

  function QmpLock(config: Config): Path {
    config.qmp + SUFFIX
  }

  function PidfileLock(config: Config): Path {
    config.pidfile + SUFFIX
  }

  function GdbLock(config: Config): Path {
    config.root + "/gdb-" + config.gdbPort + SUFFIX
  }

  function CidLock(config: Config): Path {
    config.root + "/cid-" + config.guestCid + SUFFIX
  }

  function DiskLock(root: Path, key: string): Path {
    root + "/disk-" + key + SUFFIX
  }

  /** The reservations in the order they are taken. */
  function LockPaths(config: Config): (paths: seq<Path>)
    ensures 4 <= |paths| <= 5
  {
    [QmpLock(config), PidfileLock(config), GdbLock(config), CidLock(config)] +
    if config.disk.Some? then [DiskLock(config.root, config.disk.value)] else []
  }

  /** The two signals the script traps, and any other that ends a shell. */
  datatype Signal = Term | Int | Untrapped

  datatype Disposition = Default | Forward | Defer

  /** The QEMU process: alive, exited and not waited for, or waited for. */
  datatype Child = NotForked | Live | Exited | Reaped

  datatype Pc =
    // the launch sequence
    | Acquire(i: nat)
    | Record(i: nat)
    | AllHeld
    | SaveStdin
    | DeferTerm
    | DeferInt
    | Fork
    | SetPid
    | CloseStdin
    | RestoreTerm
    | RestoreInt
    | CheckDeferred
    | WaitChild
    | ClearPid
    // cleanup_on_exit
    | CleanupEnter
    | CleanupKill
    | CleanupWait
    | CleanupClear
    | CleanupRelease(k: nat)
    // forward_signal
    | ForwardEnter
    | ForwardKill
    | ForwardWait
    | ForwardClear
    | ForwardRelease(k: nat)
    | ForwardUntrap
    // no shell any more
    | Ended
    | Killed

  // The script's three stretches

  predicate InCleanup(pc: Pc) {
    pc.CleanupEnter? || pc.CleanupKill? || pc.CleanupWait? || pc.CleanupClear? || pc.CleanupRelease?
  }

  predicate InForward(pc: Pc) {
    pc.ForwardEnter? || pc.ForwardKill? || pc.ForwardWait? || pc.ForwardClear? || pc.ForwardRelease? || pc.ForwardUntrap?
  }

  predicate InLaunch(pc: Pc) {
    pc.Acquire? || pc.Record? || pc.AllHeld? || pc.SaveStdin? || pc.DeferTerm? || pc.DeferInt? || pc.Fork? || pc.SetPid?
    || pc.CloseStdin? || pc.RestoreTerm? || pc.RestoreInt? || pc.CheckDeferred? || pc.WaitChild? || pc.ClearPid?
  }

  /** `signals` counts the TERM and INT that were delivered, `untrapped` the others; they steer nothing. */
  datatype Launcher = Launcher(
    config: Config, pc: Pc, locks: seq<Path>, term: Disposition, int_: Disposition, exitTrap: bool,
    pidKnown: bool, deferred: bool, child: Child, signals: nat, untrapped: nat)

  /** `dirs` has every existing reservation directory, and who made it, which no command can see. */
  datatype State = State(launchers: seq<Launcher>, dirs: map<Path, nat>)

  ghost predicate Init(s: State) {
    && (forall l | 0 <= l < |s.launchers| ::
          var x := s.launchers[l];
          && x.pc == Acquire(0) && x.locks == [] && x.term == Forward && x.int_ == Forward && x.exitTrap
          && !x.pidKnown && !x.deferred && x.child == NotForked && x.signals == 0
          && x.untrapped == 0)
    // directories left behind by somebody else
    && (forall path <- s.dirs :: s.dirs[path] >= |s.launchers|)
  }

  datatype Action =
    | Advance(choice: bool)
    | Deliver(signal: Signal, runsExitTrap: bool)
    | ChildExits

  datatype Step = Step(l: nat, action: Action)

  predicate Running(x: Launcher) {
    !x.pc.Ended? && !x.pc.Killed?
  }

  function DispositionOf(x: Launcher, signal: Signal): Disposition {
    match signal
    case Term => x.term
    case Int => x.int_
    case Untrapped => Default
  }

  predicate Enabled(s: State, step: Step) {
    step.l < |s.launchers| &&
    var x := s.launchers[step.l];
    match step.action
    case Advance(_) =>
      && Running(x)
      && (x.pc.Acquire? || x.pc.Record? ==> x.pc.i < |LockPaths(x.config)|)
      && (x.pc.CleanupRelease? || x.pc.ForwardRelease? ==> x.pc.k <= |x.locks|)
      // `wait` returns only once the child is gone
      && (x.pc.WaitChild? || x.pc.CleanupWait? || x.pc.ForwardWait? ==> x.child.Exited? || x.child.Reaped?)
    // a default disposition ends the shell, after its EXIT trap if that is still set
    case Deliver(signal, runsExitTrap) =>
      Running(x) && (runsExitTrap ==> DispositionOf(x, signal).Default? && x.exitTrap)
    case ChildExits => x.child.Live?
  }

  /** Whether the command in front of the launcher does what it is for. */
  predicate Succeeds(x: Launcher, dirs: map<Path, nat>, choice: bool)
    requires x.pc.Acquire? ==> x.pc.i < |LockPaths(x.config)|
  {
    choice && (x.pc.Acquire? ==> LockPaths(x.config)[x.pc.i] !in dirs)
  }

  function AdvanceLaunch(x: Launcher, ok: bool): Launcher
    requires x.pc.Record? ==> x.pc.i < |LockPaths(x.config)|
  {
    match x.pc
    case Acquire(i) => x.(pc := if ok then Record(i) else CleanupEnter)
    case Record(i) =>
      var pc := if i + 1 < |LockPaths(x.config)| then Acquire(i + 1) else AllHeld;
      x.(locks := x.locks + [LockPaths(x.config)[i]], pc := pc)
    case AllHeld => x.(pc := if x.config.dryRun then CleanupEnter else SaveStdin)
    case SaveStdin => x.(pc := if ok then DeferTerm else CleanupEnter)
    case DeferTerm => x.(term := Defer, pc := DeferInt)
    case DeferInt => x.(int_ := Defer, pc := Fork)
    case Fork => if ok then x.(child := Live, pc := SetPid) else x.(pc := CleanupEnter)
    case SetPid => x.(pidKnown := true, pc := CloseStdin)
    case CloseStdin => x.(pc := if ok then RestoreTerm else CleanupEnter)
    case RestoreTerm => x.(term := Forward, pc := RestoreInt)
    case RestoreInt => x.(int_ := Forward, pc := CheckDeferred)
    case CheckDeferred => if x.deferred then x.(deferred := false, pc := ForwardEnter) else x.(pc := WaitChild)
    case WaitChild => x.(child := Reaped, pc := ClearPid)
    case ClearPid => x.(pidKnown := false, pc := CleanupEnter)
    case _ => x
  }

  /** cleanup_on_exit */
  function AdvanceCleanup(x: Launcher): Launcher {
    match x.pc
    case CleanupEnter => x.(exitTrap := false, term := Default, int_ := Default, pc := CleanupKill)
    case CleanupKill => x.(pc := if x.pidKnown then CleanupWait else CleanupRelease(|x.locks|))
    case CleanupWait => x.(child := Reaped, pc := CleanupClear)
    case CleanupClear => x.(pidKnown := false, pc := CleanupRelease(|x.locks|))
    case CleanupRelease(k) => if k == 0 then x.(locks := [], pc := Ended) else x.(pc := CleanupRelease(k - 1))
    case _ => x
  }

  /** forward_signal */
  function AdvanceForward(x: Launcher): Launcher {
    match x.pc
    case ForwardEnter => x.(term := Default, int_ := Default, pc := ForwardKill)
    case ForwardKill => x.(pc := if x.pidKnown then ForwardWait else ForwardRelease(|x.locks|))
    case ForwardWait => x.(child := Reaped, pc := ForwardClear)
    case ForwardClear => x.(pidKnown := false, pc := ForwardRelease(|x.locks|))
    case ForwardRelease(k) => if k == 0 then x.(locks := [], pc := ForwardUntrap) else x.(pc := ForwardRelease(k - 1))
    case ForwardUntrap => x.(exitTrap := false, pc := Ended)
    case _ => x
  }

  function AdvanceLauncher(x: Launcher, ok: bool): Launcher
    requires x.pc.Record? ==> x.pc.i < |LockPaths(x.config)|
  {
    if InLaunch(x.pc) then AdvanceLaunch(x, ok)
    else if InCleanup(x.pc) then AdvanceCleanup(x)
    else AdvanceForward(x)
  }

  /** mkdir and rmdir are the only commands that touch the reservation directories. */
  function AdvanceDirs(x: Launcher, l: nat, dirs: map<Path, nat>, ok: bool): map<Path, nat>
    requires x.pc.Acquire? ==> x.pc.i < |LockPaths(x.config)|
    requires x.pc.CleanupRelease? || x.pc.ForwardRelease? ==> x.pc.k <= |x.locks|
  {
    if !ok then dirs
    else if x.pc.Acquire? then dirs[LockPaths(x.config)[x.pc.i] := l]
    else if (x.pc.CleanupRelease? || x.pc.ForwardRelease?) && x.pc.k > 0 then dirs - {x.locks[x.pc.k - 1]}
    else dirs
  }

  function DeliverTo(x: Launcher, signal: Signal, runsExitTrap: bool): Launcher {
    var y := if signal.Untrapped? then x.(untrapped := x.untrapped + 1) else x.(signals := x.signals + 1);
    match DispositionOf(x, signal)
    case Forward => y.(pc := ForwardEnter)
    case Defer => y.(deferred := true)
    case Default => y.(pc := if runsExitTrap then CleanupEnter else Killed)
  }

  function Apply(s: State, step: Step): State
    requires Enabled(s, step)
  {
    var l := step.l;
    var x := s.launchers[l];
    match step.action
    case Advance(choice) =>
      var ok := Succeeds(x, s.dirs, choice);
      State(s.launchers[l := AdvanceLauncher(x, ok)], AdvanceDirs(x, l, s.dirs, ok))
    case Deliver(signal, runsExitTrap) => s.(launchers := s.launchers[l := DeliverTo(x, signal, runsExitTrap)])
    case ChildExits => s.(launchers := s.launchers[l := x.(child := Exited)])
  }

  /** The release loop of forward_signal is under way: some reservation has been given up, and the list of them is
      still complete. */
  predicate HalfReleased(x: Launcher) {
    x.pc.ForwardRelease? && x.pc.k < |x.locks|
  }

  /** A second signal that starts the EXIT trap in the middle of that loop. */
  predicate DoubleRelease(s: State, step: Step)
    requires Enabled(s, step)
  {
    step.action.Deliver? && step.action.runsExitTrap && HalfReleased(s.launchers[step.l])
  }

  /** A signal that starts the EXIT trap when the child has been forked and its pid has not been noted. */
  predicate Orphans(s: State, step: Step)
    requires Enabled(s, step)
  {
    step.action.Deliver? && step.action.runsExitTrap && s.launchers[step.l].pc.SetPid?
  }

  predicate Hazard(s: State, step: Step)
    requires Enabled(s, step)
  {
    DoubleRelease(s, step) || Orphans(s, step)
  }

  datatype Run = Run(states: seq<State>, steps: seq<Step>)

  ghost predicate IsRun(run: Run) {
    && |run.states| == |run.steps| + 1
    && Init(run.states[0])
    && forall i | 0 <= i < |run.steps| ::
         Enabled(run.states[i], run.steps[i]) && run.states[i + 1] == Apply(run.states[i], run.steps[i])
  }

  ghost predicate HazardFree(run: Run)
    requires IsRun(run)
  {
    forall i | 0 <= i < |run.steps| :: !Hazard(run.states[i], run.steps[i])
  }

  ghost predicate OrphanFree(run: Run)
    requires IsRun(run)
  {
    forall i | 0 <= i < |run.steps| :: !Orphans(run.states[i], run.steps[i])
  }
}
