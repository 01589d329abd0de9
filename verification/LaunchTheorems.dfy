/** What the launch reservations are for, over whole runs of any number of launchers. */
module LaunchTheorems {
  import opened Launch
  import opened LaunchInvariant

  /** Two launchers use nothing in common; ports, ids and disks are compared only where both use the same lock root. */
  predicate NothingShared(a: Config, b: Config) {
    && a.qmp != b.qmp
    && a.pidfile != b.pidfile
    && (a.root == b.root ==>
          && a.gdbPort != b.gdbPort
          && a.guestCid != b.guestCid
          && (a.disk.Some? && b.disk.Some? ==> a.disk.value != b.disk.value))
  }

  predicate Disjoint(a: seq<Path>, b: seq<Path>) {
    forall i, j | 0 <= i < |a| && 0 <= j < |b| :: a[i] != b[j]
  }

  /** Reservations that do not collide mean resources that do not collide. */
  lemma DisjointLocksShareNothing(a: Config, b: Config)
    requires Disjoint(LockPaths(a), LockPaths(b))
    ensures NothingShared(a, b)
  {
    var p, q := LockPaths(a), LockPaths(b);
    assert p[0] == QmpLock(a) && q[0] == QmpLock(b);
    assert p[1] == PidfileLock(a) && q[1] == PidfileLock(b);
    assert p[2] == GdbLock(a) && q[2] == GdbLock(b);
    assert p[3] == CidLock(a) && q[3] == CidLock(b);
    assert a.disk.Some? ==> p[4] == DiskLock(a.root, a.disk.value);
    assert b.disk.Some? ==> q[4] == DiskLock(b.root, b.disk.value);
  }

  /** A launcher with a child nobody has waited for owns every one of its reservations. */
  lemma UnreapedOwnsAll(x: Launcher, l: nat, dirs: map<Path, nat>, j: nat)
    requires LauncherFits(x) && OwnsReservations(x, l, dirs) && Unreaped(x.child) && j < |LockPaths(x.config)|
    ensures LockPaths(x.config)[j] in dirs && dirs[LockPaths(x.config)[j]] == l
  {
    hide LockPaths, TrapsFit;
    assert Guarded(x) == |x.locks|;
    assert x.locks[j] == LockPaths(x.config)[j];
  }

  /** No two children that are alive at once share a resource. */
  lemma LiveChildrenShareNothing(run: Run, i: nat, l: nat, m: nat)
    requires IsRun(run) && HazardFree(run) && i < |run.states|
    requires l < |run.states[i].launchers| && m < |run.states[i].launchers| && l != m
    requires Unreaped(run.states[i].launchers[l].child) && Unreaped(run.states[i].launchers[m].child)
    ensures NothingShared(run.states[i].launchers[l].config, run.states[i].launchers[m].config)
  {
    RunKeepsInv(run, i);
    var s := run.states[i];
    var p, q := LockPaths(s.launchers[l].config), LockPaths(s.launchers[m].config);
    forall a, b | 0 <= a < |p| && 0 <= b < |q| ensures p[a] != q[b] {
      UnreapedOwnsAll(s.launchers[l], l, s.dirs, a);
      UnreapedOwnsAll(s.launchers[m], m, s.dirs, b);
    }
    hide LockPaths;
    DisjointLocksShareNothing(s.launchers[l].config, s.launchers[m].config);
  }

  /** A reservation disappears only by the hand of a launcher that has never forked, or has waited for its child. */
  lemma RemovalFollowsReaping(run: Run, i: nat, path: Path)
    requires IsRun(run) && OrphanFree(run) && i < |run.steps|
    requires path in run.states[i].dirs && path !in run.states[i + 1].dirs
    ensures var x := run.states[i].launchers[run.steps[i].l];
            && (x.child.NotForked? || x.child.Reaped?)
            && path in LockPaths(x.config)
  {
    RunKeepsFits(run, i);
    hide LockPaths, AdvanceLauncher, DeliverTo, TrapsFit;
  }

  /** And where nothing is released twice it is the launcher that made it. */
  lemma RemovalIsOfOnesOwn(run: Run, i: nat, path: Path)
    requires IsRun(run) && HazardFree(run) && i < |run.steps|
    requires path in run.states[i].dirs && path !in run.states[i + 1].dirs
    ensures run.states[i].dirs[path] == run.steps[i].l
  {
    RunKeepsInv(run, i);
    hide LockPaths, AdvanceLauncher, DeliverTo, TrapsFit;
  }

  // When the hazards cannot arise

  predicate Counted(x: Launcher) {
    InForward(x.pc) || x.deferred ==> x.signals > 0
  }

  lemma AdvanceKeepsCount(x: Launcher, ok: bool)
    requires x.pc.Record? ==> x.pc.i < |LockPaths(x.config)|
    requires Counted(x)
    ensures var y := AdvanceLauncher(x, ok); Counted(y) && y.signals == x.signals && y.untrapped == x.untrapped
  {
    hide LockPaths;
  }

  lemma StepCounts(s: State, step: Step, l: nat)
    requires Enabled(s, step) && l < |s.launchers| && Counted(s.launchers[l])
    ensures |Apply(s, step).launchers| == |s.launchers|
    ensures var x, y := s.launchers[l], Apply(s, step).launchers[l]; var hit := step.l == l && step.action.Deliver?;
            && Counted(y)
            && y.signals == x.signals + (if hit && !step.action.signal.Untrapped? then 1 else 0)
            && y.untrapped == x.untrapped + (if hit && step.action.signal.Untrapped? then 1 else 0)
  {
    if step.l == l && step.action.Advance? {
      AdvanceKeepsCount(s.launchers[l], Succeeds(s.launchers[l], s.dirs, step.action.choice));
    }
    hide AdvanceLauncher, LockPaths;
  }

  lemma {:induction false} SameLaunchers(run: Run, i: nat)
    requires IsRun(run) && i < |run.states|
    ensures |run.states[i].launchers| == |run.states[0].launchers|
  {
    if i > 0 {
      SameLaunchers(run, i - 1);
      hide AdvanceLauncher, AdvanceDirs, DeliverTo;
    }
  }

  lemma {:induction false} RunCounts(run: Run, i: nat, l: nat)
    requires IsRun(run) && i < |run.states| && l < |run.states[0].launchers|
    ensures |run.states[i].launchers| == |run.states[0].launchers|
    ensures Counted(run.states[i].launchers[l])
  {
    SameLaunchers(run, i);
    if i > 0 {
      RunCounts(run, i - 1, l);
      hide Apply;
      StepCounts(run.states[i - 1], run.steps[i - 1], l);
    }
  }

  lemma {:induction false} CountsGrow(run: Run, i: nat, j: nat, l: nat)
    requires IsRun(run) && i <= j < |run.states| && l < |run.states[0].launchers|
    ensures |run.states[i].launchers| == |run.states[0].launchers| == |run.states[j].launchers|
    ensures run.states[i].launchers[l].signals <= run.states[j].launchers[l].signals
    ensures run.states[i].launchers[l].untrapped <= run.states[j].launchers[l].untrapped
    decreases j - i
  {
    RunCounts(run, i, l);
    if i < j {
      CountsGrow(run, i + 1, j, l);
      hide Apply;
      StepCounts(run.states[i], run.steps[i], l);
    }
  }

  /** Releasing twice takes an untrapped signal, or a second TERM or INT to the same launcher; orphaning a child takes an
      untrapped one. */
  lemma HazardTakesSignals(run: Run, i: nat)
    requires IsRun(run) && i < |run.steps| && Hazard(run.states[i], run.steps[i])
    ensures exists x <- run.states[|run.steps|].launchers ::
              x.untrapped >= 1 || (x.signals >= 2 && !Orphans(run.states[i], run.steps[i]))
  {
    var l := run.steps[i].l;
    var last := run.states[|run.steps|];
    SameLaunchers(run, i);
    RunCounts(run, i, l);
    RunKeepsShells(run, i);
    CountsGrow(run, i + 1, |run.steps|, l);
    hide Apply, LocksFit;
    StepCounts(run.states[i], run.steps[i], l);
    assert ShellFits(run.states[i].launchers[l]);
    assert last.launchers[l] in last.launchers;
  }

  /** One TERM or INT for each launcher, and nothing else, is never enough. */
  lemma OneSignalIsHarmless(run: Run)
    requires IsRun(run)
    requires forall x <- run.states[|run.steps|].launchers :: x.signals <= 1 && x.untrapped == 0
    ensures HazardFree(run)
  {
    forall i | 0 <= i < |run.steps| ensures !Hazard(run.states[i], run.steps[i]) {
      if Hazard(run.states[i], run.steps[i]) {
        HazardTakesSignals(run, i);
      }
    }
  }

  /** Any number of TERM and INT orphan no child. */
  lemma TrappedSignalsOrphanNobody(run: Run)
    requires IsRun(run)
    requires forall x <- run.states[|run.steps|].launchers :: x.untrapped == 0
    ensures OrphanFree(run)
  {
    forall i | 0 <= i < |run.steps| ensures !Orphans(run.states[i], run.steps[i]) {
      if Orphans(run.states[i], run.steps[i]) {
        HazardTakesSignals(run, i);
      }
    }
  }
}
