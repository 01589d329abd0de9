/** Reading one process out of procfs while pids are reused.

  Every read is one tick of the world's clock; between two ticks the process may exit and its pid may go to another
  one. The world also decides how a read fails. The reader knows a process only by the pid and start time that its
  stat line shows.
*/
module ProcGeneration {
  import opened Common

  datatype ProcError =
    InvalidPid | ProcNotFound | Permission | Parse | ReadFailed | InvalidPageSize | CpuSampleFailed

  /** One generation of the pid, as it is at some tick. */
  datatype Task = Task(generation: nat, startTime: nat, statPid: int, blocked: bool)

  /** What goes wrong with a read although the pid is taken: the file is absent, the process exits under the open file,
      access is denied, the content does not parse, or anything else. */
  datatype Fault = Clean | Absent | Gone | Denied | Corrupt | Failed

  datatype World = World(occupant: nat -> Option<Task>, fault: nat -> Fault)

  /** A generation lasts for one stretch of time; what identifies it stays, and a later one starts strictly later. */
  ghost predicate Genuine(world: World) {
    forall s: nat, t: nat | s <= t && world.occupant(s).Some? && world.occupant(t).Some? ::
      var a, b := world.occupant(s).value, world.occupant(t).value;
      && a.generation <= b.generation
      && (a.generation < b.generation ==> a.startTime < b.startTime)
      && (a.generation == b.generation ==>
            && a.startTime == b.startTime
            && a.statPid == b.statPid
            && forall m: nat | s <= m <= t ::
                 world.occupant(m).Some? && world.occupant(m).value.generation == a.generation)
  }

  datatype Leaf =
    Stat | Status | Maps | Wchan | Cmdline | Fd | Stack | Exe | Cgroup | Directory | SystemStat | PageSize

  datatype Read = Read(leaf: Leaf, seen: Option<Task>, fault: Fault)

  predicate OfProcess(leaf: Leaf) {
    !leaf.SystemStat? && !leaf.PageSize?
  }

  /** A read that does not stand in the way of a result for this pid. */
  predicate Harmless(read: Read, pid: int) {
    match read.leaf
    case SystemStat | PageSize => read.fault.Clean?
    case Stat => read.seen.Some? && read.fault.Clean? && read.seen.value.statPid == pid
    case Status | Fd => read.seen.Some? && read.fault.Clean?
    case Maps | Cmdline | Directory => read.seen.Some? && (read.fault.Clean? || read.fault.Corrupt?)
    case Wchan | Stack | Exe => read.seen.Some? && (read.fault.Clean? || read.fault.Corrupt? || read.fault.Absent?)
    case Cgroup => read.seen.Some? && (read.fault.Clean? || read.fault.Absent?)
  }

  ghost predicate AllHarmless(log: seq<Read>, from: nat, pid: int) {
    forall i | from <= i < |log| :: Harmless(log[i], pid)
  }

  ghost predicate SameGeneration(a: Read, b: Read) {
    OfProcess(a.leaf) && OfProcess(b.leaf) && a.seen.Some? && b.seen.Some? ==>
      a.seen.value.generation == b.seen.value.generation
  }

  ghost predicate OneGeneration(log: seq<Read>, from: nat) {
    forall i, j | from <= i < j < |log| :: SameGeneration(log[i], log[j])
  }

  /** Nothing happened that a result for this pid could not survive. */
  ghost predicate Undisturbed(log: seq<Read>, from: nat, pid: int) {
    AllHarmless(log, from, pid) && OneGeneration(log, from)
  }

  /** Every read hit the pid while it was taken, and hit the same process. */
  ghost predicate ReadsOneProcess(log: seq<Read>, from: nat, generation: nat) {
    forall i | from <= i < |log| && OfProcess(log[i].leaf) ::
      log[i].seen.Some? && log[i].seen.value.generation == generation
  }

  /** Equal start times, and everything in between belongs to the same process. */
  lemma EqualStartsBracket(world: World, first: nat, last: nat, t: nat)
    requires Genuine(world) && first <= t <= last
    requires world.occupant(first).Some? && world.occupant(last).Some?
    requires world.occupant(first).value.startTime == world.occupant(last).value.startTime
    ensures world.occupant(t).Some? && world.occupant(t).value.generation == world.occupant(first).value.generation
  {}

  /** A file's content: the process it shows, whether it parses, and the tick it was read at. */
  datatype Content = Content(task: Task, intact: bool, tick: nat)

  /** An optional file: its content, or the tick at which it was not there, or nothing because it was not asked for. */
  datatype Optional = Present(content: Content) | Missing(tick: nat) | NotAsked

  datatype SnapshotReads = SnapshotReads(
    status: Content, maps: Content, wchan: Optional, cmdline: Content, fds: Content,
    stack: Optional, exe: Optional, cgroup: Optional)

  datatype Snapshot = Snapshot(stat: Content, body: SnapshotReads)

  /** The content is what the log has for this file at that tick. */
  predicate Shows(content: Content, leaf: Leaf, log: seq<Read>, from: nat) {
    && from <= content.tick < |log|
    && log[content.tick] == Read(leaf, Some(content.task), log[content.tick].fault)
    && log[content.tick].fault == if content.intact then Clean else Corrupt
  }

  /** The pid's own directory was there. */
  predicate FindsDirectory(read: Read) {
    read.leaf.Directory? && read.seen.Some? && (read.fault.Clean? || read.fault.Corrupt?)
  }

  predicate MaybeShows(optional: Optional, leaf: Leaf, log: seq<Read>, from: nat) {
    match optional
    case Present(content) => Shows(content, leaf, log, from)
    case Missing(tick) =>
      && from <= tick < |log| - 1 && log[tick].leaf == leaf
      && (log[tick].seen.None? || log[tick].fault.Absent?)
      && FindsDirectory(log[tick + 1])
    case NotAsked => leaf.Stack?
  }

  predicate BodyShows(body: SnapshotReads, log: seq<Read>, from: nat) {
    && Shows(body.status, Status, log, from) && Shows(body.maps, Maps, log, from)
    && MaybeShows(body.wchan, Wchan, log, from) && Shows(body.cmdline, Cmdline, log, from)
    && Shows(body.fds, Fd, log, from) && MaybeShows(body.stack, Stack, log, from)
    && MaybeShows(body.exe, Exe, log, from) && MaybeShows(body.cgroup, Cgroup, log, from)
  }

  // A longer log, or one looked at from further back, shows no less.

  lemma ShowsLater(content: Content, leaf: Leaf, was: seq<Read>, log: seq<Read>, later: nat, from: nat)
    requires Shows(content, leaf, was, later) && was <= log && from <= later
    ensures Shows(content, leaf, log, from)
  {}

  lemma MaybeShowsLater(optional: Optional, leaf: Leaf, was: seq<Read>, log: seq<Read>, later: nat, from: nat)
    requires MaybeShows(optional, leaf, was, later) && was <= log && from <= later
    ensures MaybeShows(optional, leaf, log, from)
  {}

  lemma BodyShowsLater(body: SnapshotReads, was: seq<Read>, log: seq<Read>, later: nat, from: nat)
    requires BodyShows(body, was, later) && was <= log && from <= later
    ensures BodyShows(body, log, from)
  {}

  lemma BodyIsShown(body: SnapshotReads, memory: seq<Read>, activity: seq<Read>, log: seq<Read>, from: nat)
    requires memory <= activity <= log && from <= |memory|
    requires Shows(body.status, Status, memory, from) && Shows(body.maps, Maps, memory, from)
    requires MaybeShows(body.wchan, Wchan, memory, from) && Shows(body.cmdline, Cmdline, memory, from)
    requires Shows(body.fds, Fd, activity, |memory|) && MaybeShows(body.stack, Stack, activity, |memory|)
    requires MaybeShows(body.exe, Exe, log, |activity|) && MaybeShows(body.cgroup, Cgroup, log, |activity|)
    ensures BodyShows(body, log, from)
  {
    hide Shows, MaybeShows;
    ShowsLater(body.status, Status, memory, log, from, from);
    ShowsLater(body.maps, Maps, memory, log, from, from);
    MaybeShowsLater(body.wchan, Wchan, memory, log, from, from);
    ShowsLater(body.cmdline, Cmdline, memory, log, from, from);
    ShowsLater(body.fds, Fd, activity, log, |memory|, from);
    MaybeShowsLater(body.stack, Stack, activity, log, |memory|, from);
    MaybeShowsLater(body.exe, Exe, log, log, |activity|, from);
    MaybeShowsLater(body.cgroup, Cgroup, log, log, |activity|, from);
  }

  /** What is left to parse after the last look at the process. */
  predicate Parses(body: SnapshotReads) {
    body.status.intact && CgroupParses(body.cgroup)
  }

  predicate CgroupParses(cgroup: Optional) {
    cgroup.Present? ==> cgroup.content.intact
  }

  predicate From(content: Content, generation: nat) {
    content.task.generation == generation
  }

  predicate MaybeFrom(optional: Optional, generation: nat) {
    optional.Present? ==> From(optional.content, generation)
  }

  /** Every field of the snapshot is from one process. */
  predicate AllFrom(snapshot: Snapshot, generation: nat) {
    var r := snapshot.body;
    && From(snapshot.stat, generation)
    && From(r.status, generation) && From(r.maps, generation) && MaybeFrom(r.wchan, generation)
    && From(r.cmdline, generation) && From(r.fds, generation) && MaybeFrom(r.stack, generation)
    && MaybeFrom(r.exe, generation) && MaybeFrom(r.cgroup, generation)
  }

  /** The log agrees with the world, tick by tick. */
  ghost predicate Records(log: seq<Read>, world: World) {
    forall i | 0 <= i < |log| :: log[i].seen == world.occupant(i) && log[i].fault == world.fault(i)
  }

  /** Every read that found the pid taken went well. */
  ghost predicate Sound(log: seq<Read>, from: nat, pid: int) {
    forall i | from <= i < |log| :: log[i].seen.Some? || !OfProcess(log[i].leaf) ==> Harmless(log[i], pid)
  }

  ghost predicate NoFaults(log: seq<Read>, from: nat) {
    forall i | from <= i < |log| :: log[i].fault.Clean?
  }

  /** A read that is the reason for an error. A process is not found where its files are gone or stat shows another pid;
      only some files have to parse; whatever goes wrong with the second sample, unless the process is gone, is one error. */
  predicate Blames(read: Read, error: ProcError, pid: int) {
    match error
    case ProcNotFound =>
      || (OfProcess(read.leaf) && (read.seen.None? || read.fault.Gone?))
      || (read.leaf in {Stat, Status, Maps, Cmdline, Fd, Directory} && read.fault.Absent?)
      || (read.leaf.Stat? && read.seen.Some? && read.seen.value.statPid != pid)
    case Permission => read.fault.Denied?
    case ReadFailed => read.fault.Failed? || (read.leaf.SystemStat? && (read.fault.Absent? || read.fault.Gone?))
    case Parse => read.fault.Corrupt? && read.leaf in {Stat, Status, Fd, Cgroup, SystemStat}
    case InvalidPageSize => read.leaf.PageSize? && !read.fault.Clean?
    case CpuSampleFailed => !read.fault.Clean?
    case InvalidPid => false
  }

  /** The error has a reason among the reads. */
  ghost predicate Caused(log: seq<Read>, from: nat, pid: int, error: ProcError) {
    exists i :: from <= i < |log| && Blames(log[i], error, pid)
  }

  lemma UnparsedIsCause(content: Content, leaf: Leaf, was: seq<Read>, log: seq<Read>, from: nat, pid: int)
    requires Shows(content, leaf, was, from) && !content.intact && was <= log && leaf in {Stat, Status, Fd, Cgroup}
    ensures Caused(log, from, pid, Parse)
  {
    assert Blames(log[content.tick], Parse, pid);
  }

  lemma CgroupIsCause(body: SnapshotReads, log: seq<Read>, from: nat, pid: int)
    requires BodyShows(body, log, from) && !CgroupParses(body.cgroup)
    ensures Caused(log, from, pid, Parse)
  {
    UnparsedIsCause(body.cgroup.content, Cgroup, log, log, from, pid);
  }

  lemma StatusIsCause(body: SnapshotReads, log: seq<Read>, from: nat, pid: int)
    requires BodyShows(body, log, from) && !body.status.intact
    ensures Caused(log, from, pid, Parse)
  {
    UnparsedIsCause(body.status, Status, log, log, from, pid);
  }

  /** A second sample that fails for any reason but the process's absence. */
  lemma SampleIsCause(log: seq<Read>, from: nat, pid: int, error: ProcError)
    requires Caused(log, from, pid, error) && !error.ProcNotFound?
    ensures Caused(log, from, pid, CpuSampleFailed)
  {
    var i :| from <= i < |log| && Blames(log[i], error, pid);
    assert Blames(log[i], CpuSampleFailed, pid);
  }

  lemma WrongPidIsCause(read: Read, pid: int)
    requires read.leaf.Stat? && read.seen.Some? && read.seen.value.statPid != pid
    ensures Blames(read, ProcNotFound, pid)
  {}

  ghost predicate HasRead(log: seq<Read>, from: nat, leaf: Leaf) {
    exists i :: from <= i < |log| && log[i].leaf == leaf && log[i].fault.Clean?
  }

  /** Two looks at stat that show different start times. */
  ghost predicate StartsDiffer(a: Read, b: Read) {
    a.leaf.Stat? && b.leaf.Stat? && a.seen.Some? && b.seen.Some? && a.seen.value.startTime != b.seen.value.startTime
  }

  lemma StartsDifferDisturb(log: seq<Read>, world: World, from: nat, i: nat, j: nat, pid: int)
    requires Genuine(world) && Records(log, world) && from <= i < j < |log| && StartsDiffer(log[i], log[j])
    ensures !OneGeneration(log, from) && !Undisturbed(log, from, pid)
  {
    assert !SameGeneration(log[i], log[j]);
  }

  /** Two looks that show the same start time: one process all along, so nothing that was read can be anybody else's. */
  lemma EqualStartsUndisturbed(log: seq<Read>, world: World, from: nat, last: nat, pid: int)
    requires Genuine(world) && Records(log, world) && from < last < |log|
    requires log[from].leaf.Stat? && log[last].leaf.Stat? && log[from].seen.Some? && log[last].seen.Some?
    requires log[from].seen.value.startTime == log[last].seen.value.startTime
    requires forall i | last < i < |log| :: !OfProcess(log[i].leaf)
    ensures ReadsOneProcess(log, from, log[from].seen.value.generation) && OneGeneration(log, from)
    ensures log[last].seen.value.statPid == log[from].seen.value.statPid
    ensures Sound(log, from, pid) ==> AllHarmless(log, from, pid)
  {
    forall i | from <= i <= last
      ensures log[i].seen.Some? && log[i].seen.value.generation == log[from].seen.value.generation
    {
      EqualStartsBracket(world, from, last, i);
    }
    hide Genuine, Harmless;
  }

  lemma ShownByOne(snapshot: Snapshot, log: seq<Read>, from: nat, generation: nat)
    requires ReadsOneProcess(log, from, generation)
    requires Shows(snapshot.stat, Stat, log, from) && BodyShows(snapshot.body, log, from)
    ensures AllFrom(snapshot, generation)
  {}

  /** procfs as the reader meets it. `log` has every read that was made; its length is the time. */
  class Procfs {
    const world: World
    var log: seq<Read>

    constructor (world: World)
      requires Genuine(world)
      ensures Valid() && log == [] && this.world == world
    {
      this.world := world;
      log := [];
    }

    ghost predicate Valid()
      reads this
    {
      Genuine(world) && Records(log, world)
    }

    method Observe(leaf: Leaf) returns (read: Read)
      requires Valid()
      modifies this`log
      ensures Valid() && log == old(log) + [read] && read.leaf == leaf
    {
      read := Read(leaf, world.occupant(|log|), world.fault(|log|));
      log := log + [read];
    }

    method ReadRequired(leaf: Leaf, pid: int) returns (r: Result<Content, ProcError>)
      requires Valid() && leaf in {Stat, Status, Maps, Cmdline, Fd}
      modifies this`log
      ensures Valid() && |log| == |old(log)| + 1 && old(log) < log && log[|old(log)|].leaf == leaf
      ensures r.Ok? ==>
                && Shows(r.value, leaf, log, |old(log)|) && r.value.tick == |old(log)|
      ensures Harmless(log[|old(log)|], pid) <==>
                && r.Ok?
                && (leaf in {Stat, Status, Fd} ==> r.value.intact)
                && (leaf.Stat? ==> r.value.task.statPid == pid)
      ensures NoFaults(log, |old(log)|) ==> if r.Ok? then r.value.intact else r.error == ProcNotFound
      ensures r.Err? ==> Caused(log, |old(log)|, pid, r.error)
    {
      var read := Observe(leaf);
      assert log[|old(log)|] == read;
      if read.seen.None? || read.fault.Absent? || read.fault.Gone? {
        return Err(ProcNotFound);
      } else if read.fault.Denied? {
        return Err(Permission);
      } else if read.fault.Failed? {
        return Err(ReadFailed);
      }
      return Ok(Content(read.seen.value, read.fault.Clean?, |log| - 1));
    }

    /** An optional file that is not there means nothing as long as the pid's directory is. */
    method ReadOptional(leaf: Leaf, pid: int) returns (r: Result<Optional, ProcError>)
      requires Valid() && leaf in {Wchan, Stack, Exe, Cgroup}
      modifies this`log
      ensures Valid() && old(log) < log && log[|old(log)|].leaf == leaf
      ensures r.Ok? ==> MaybeShows(r.value, leaf, log, |old(log)|) && !r.value.NotAsked?
      ensures r.Ok? && (leaf.Cgroup? ==> CgroupParses(r.value)) ==> Sound(log, |old(log)|, pid)
      ensures r.Ok? && leaf.Cgroup? && !CgroupParses(r.value) ==> !AllHarmless(log, |old(log)|, pid)
      ensures r.Err? ==> !AllHarmless(log, |old(log)|, pid)
      ensures NoFaults(log, |old(log)|) ==> if r.Ok? then CgroupParses(r.value) else r.error == ProcNotFound
      ensures r.Err? ==> Caused(log, |old(log)|, pid, r.error)
    {
      var read := Observe(leaf);
      assert log[|old(log)|] == read;
      if read.seen.None? || read.fault.Absent? {
        var _ :- AbsentOrGone(pid);
        assert log[|old(log)|] == read;
        return Ok(Missing(|log| - 2));
      } else if read.fault.Gone? {
        return Err(ProcNotFound);
      } else if read.fault.Denied? {
        return Err(Permission);
      } else if read.fault.Failed? {
        return Err(ReadFailed);
      }
      return Ok(Present(Content(read.seen.value, read.fault.Clean?, |log| - 1)));
    }

    method AbsentOrGone(pid: int) returns (r: Result<(), ProcError>)
      requires Valid()
      modifies this`log
      ensures Valid() && |log| == |old(log)| + 1 && old(log) < log && log[|old(log)|].leaf == Directory
      ensures if Harmless(log[|old(log)|], pid) then r.Ok? else r.Err?
      ensures r.Err? && log[|old(log)|].fault.Clean? ==> r.error == ProcNotFound
      ensures r.Err? ==> Caused(log, |old(log)|, pid, r.error)
    {
      var read := Observe(Directory);
      if read.seen.None? || read.fault.Absent? || read.fault.Gone? {
        return Err(ProcNotFound);
      } else if read.fault.Denied? {
        return Err(Permission);
      } else if read.fault.Failed? {
        return Err(ReadFailed);
      }
      return Ok(());
    }

    /** /proc/stat and sysconf. */
    method ReadGlobal(leaf: Leaf, pid: int) returns (r: Result<(), ProcError>)
      requires Valid() && leaf in {SystemStat, PageSize}
      modifies this`log
      ensures Valid() && |log| == |old(log)| + 1 && old(log) < log && log[|old(log)|].leaf == leaf
      ensures r.Ok? <==> Harmless(log[|old(log)|], pid)
      ensures r.Ok? <==> log[|old(log)|].fault.Clean?
      ensures r.Err? ==> Caused(log, |old(log)|, pid, r.error)
    {
      var read := Observe(leaf);
      if read.fault.Clean? {
        return Ok(());
      } else if leaf.PageSize? {
        return Err(InvalidPageSize);
      }
      return Err(if read.fault.Denied? then Permission else if read.fault.Corrupt? then Parse else ReadFailed);
    }

    /** The reads between the two looks at stat, the first half of them. */
    method ReadMemory(pid: int) returns (r: Result<(Content, Content, Optional, Content), ProcError>)
      requires Valid()
      modifies this`log
      ensures Valid() && old(log) < log
      ensures r.Ok? ==>
                && Shows(r.value.0, Status, log, |old(log)|) && Shows(r.value.1, Maps, log, |old(log)|)
                && MaybeShows(r.value.2, Wchan, log, |old(log)|) && Shows(r.value.3, Cmdline, log, |old(log)|)
      ensures r.Ok? && r.value.0.intact ==> Sound(log, |old(log)|, pid)
      ensures r.Err? || !r.value.0.intact ==> !AllHarmless(log, |old(log)|, pid)
      ensures NoFaults(log, |old(log)|) ==> if r.Ok? then r.value.0.intact else r.error == ProcNotFound
      ensures r.Err? ==> Caused(log, |old(log)|, pid, r.error)
    {
      hide Genuine, Records, Blames, Harmless;
      var status :- ReadRequired(Status, pid);
      var maps :- ReadRequired(Maps, pid);
      var wchan :- ReadOptional(Wchan, pid);
      var cmdline :- ReadRequired(Cmdline, pid);
      return Ok((status, maps, wchan, cmdline));
    }

    /** The kernel stack is looked at only where the process is blocked. */
    method ReadStack(pid: int, blocked: bool) returns (r: Result<Optional, ProcError>)
      requires Valid()
      modifies this`log
      ensures Valid() && old(log) <= log
      ensures r.Ok? ==> MaybeShows(r.value, Stack, log, |old(log)|) && (r.value.NotAsked? <==> !blocked)
      ensures r.Ok? ==> Sound(log, |old(log)|, pid)
      ensures r.Err? ==> !AllHarmless(log, |old(log)|, pid)
      ensures NoFaults(log, |old(log)|) && r.Err? ==> r.error == ProcNotFound
      ensures r.Err? ==> Caused(log, |old(log)|, pid, r.error)
    {
      hide Genuine, Records, Blames, Harmless;
      if blocked {
        r := ReadOptional(Stack, pid);
      } else {
        r := Ok(NotAsked);
      }
    }

    method ReadFds(pid: int) returns (r: Result<Content, ProcError>)
      requires Valid()
      modifies this`log
      ensures Valid() && old(log) < log
      ensures r.Ok? ==> Shows(r.value, Fd, log, |old(log)|) && Sound(log, |old(log)|, pid)
      ensures r.Err? ==> !AllHarmless(log, |old(log)|, pid) && Caused(log, |old(log)|, pid, r.error)
      ensures NoFaults(log, |old(log)|) && r.Err? ==> r.error == ProcNotFound
    {
      hide Genuine, Records, Blames, Harmless;
      var fds :- ReadRequired(Fd, pid);
      if !fds.intact {
        UnparsedIsCause(fds, Fd, log, log, |old(log)|, pid);
        return Err(Parse);
      }
      return Ok(fds);
    }

    /** The second half: what the process has open and where it is blocked. */
    method ReadActivity(pid: int, blocked: bool) returns (r: Result<(Content, Optional), ProcError>)
      requires Valid()
      modifies this`log
      ensures Valid() && old(log) < log
      ensures r.Ok? ==>
                && Shows(r.value.0, Fd, log, |old(log)|) && MaybeShows(r.value.1, Stack, log, |old(log)|)
                && (r.value.1.NotAsked? <==> !blocked)
                && Sound(log, |old(log)|, pid)
      ensures r.Err? ==> !AllHarmless(log, |old(log)|, pid) && Caused(log, |old(log)|, pid, r.error)
      ensures NoFaults(log, |old(log)|) && r.Err? ==> r.error == ProcNotFound
    {
      hide Genuine, Records, Blames, Harmless, Shows, MaybeShows;
      var fds :- ReadFds(pid);
      ghost var was := log;
      var stack :- ReadStack(pid, blocked);
      ShowsLater(fds, Fd, was, log, |old(log)|, |old(log)|);
      MaybeShowsLater(stack, Stack, log, log, |was|, |old(log)|);
      return Ok((fds, stack));
    }

    /** And what program it runs, where. */
    method ReadIdentity(pid: int) returns (r: Result<(Optional, Optional), ProcError>)
      requires Valid()
      modifies this`log
      ensures Valid() && old(log) < log
      ensures r.Ok? ==>
                && MaybeShows(r.value.0, Exe, log, |old(log)|) && MaybeShows(r.value.1, Cgroup, log, |old(log)|)
                && HasRead(log, |old(log)|, PageSize)
      ensures r.Ok? && CgroupParses(r.value.1) ==> Sound(log, |old(log)|, pid)
      ensures r.Err? || !CgroupParses(r.value.1) ==> !AllHarmless(log, |old(log)|, pid)
      ensures NoFaults(log, |old(log)|) ==> if r.Ok? then CgroupParses(r.value.1) else r.error == ProcNotFound
      ensures r.Err? ==> Caused(log, |old(log)|, pid, r.error)
    {
      hide Genuine, Records, Blames, Harmless, Shows, MaybeShows, CgroupParses;
      var exe :- ReadOptional(Exe, pid);
      ghost var logExe := log;
      var cgroup :- ReadOptional(Cgroup, pid);
      ghost var logCgroup := log;
      var _ :- ReadGlobal(PageSize, pid);
      MaybeShowsLater(exe, Exe, logExe, log, |old(log)|, |old(log)|);
      MaybeShowsLater(cgroup, Cgroup, logCgroup, log, |logExe|, |old(log)|);
      return Ok((exe, cgroup));
    }

    method ReadBody(pid: int, blocked: bool) returns (r: Result<SnapshotReads, ProcError>)
      requires Valid()
      modifies this`log
      ensures Valid() && old(log) < log
      ensures r.Ok? ==> BodyShows(r.value, log, |old(log)|) && (r.value.stack.NotAsked? <==> !blocked)
      ensures r.Ok? && Parses(r.value) ==> Sound(log, |old(log)|, pid)
      ensures r.Err? || !Parses(r.value) ==> !AllHarmless(log, |old(log)|, pid)
      ensures NoFaults(log, |old(log)|) ==> if r.Ok? then Parses(r.value) else r.error == ProcNotFound
      ensures r.Err? ==> Caused(log, |old(log)|, pid, r.error)
      ensures r.Ok? ==> HasRead(log, |old(log)|, PageSize)
    {
      hide Genuine, Records, Blames, Harmless, CgroupParses, Shows, MaybeShows, BodyShows;
      var memory :- ReadMemory(pid);
      ghost var logMemory := log;
      var activity :- ReadActivity(pid, blocked);
      ghost var logActivity := log;
      var identity :- ReadIdentity(pid);
      r := Ok(SnapshotReads(memory.0, memory.1, memory.2, memory.3, activity.0, activity.1, identity.0, identity.1));
      BodyIsShown(r.value, logMemory, logActivity, log, |old(log)|);
    }

    /** The last look at stat: the same pid, the same start time. */
    method ReadFinal(pid: int, initial: Task) returns (r: Result<(), ProcError>)
      requires Valid() && initial.statPid == pid
      modifies this`log
      ensures Valid() && |log| == |old(log)| + 1 && old(log) < log && log[|old(log)|].leaf.Stat?
      ensures r.Ok? ==>
                && log[|old(log)|].seen.Some? && log[|old(log)|].seen.value.startTime == initial.startTime
                && log[|old(log)|].fault.Clean?
                && Sound(log, |old(log)|, pid)
      ensures r.Err? ==>
                || (!AllHarmless(log, |old(log)|, pid) && Caused(log, |old(log)|, pid, r.error))
                || (r.error == ProcNotFound && log[|old(log)|].seen.Some?
                    && log[|old(log)|].seen.value.startTime != initial.startTime)
      ensures NoFaults(log, |old(log)|) && r.Err? ==> r.error == ProcNotFound
    {
      hide Genuine, Records, Blames, Harmless;
      var final :- ReadRequired(Stat, pid);
      if !final.intact {
        UnparsedIsCause(final, Stat, log, log, |old(log)|, pid);
        return Err(Parse);
      }
      if final.task.statPid != pid {
        WrongPidIsCause(log[|old(log)|], pid);
        return Err(ProcNotFound);
      }
      if final.task.startTime != initial.startTime {
        return Err(ProcNotFound);
      }
      return Ok(());
    }

    /** with_stable_process_generation around the body. */
    method ReadStable(pid: int, initial: Task) returns (r: Result<SnapshotReads, ProcError>)
      requires Valid()
      modifies this`log
      ensures Valid() && old(log) <= log
      ensures initial.statPid != pid ==> r == Err(ProcNotFound) && log == old(log)
      ensures r.Ok? ==>
                && BodyShows(r.value, log, |old(log)|) && (r.value.stack.NotAsked? <==> !initial.blocked)
                && |old(log)| < |log| && log[|log| - 1].leaf == Stat && log[|log| - 1].seen.Some?
                && log[|log| - 1].seen.value.startTime == initial.startTime && log[|log| - 1].fault.Clean?
                && HasRead(log, |old(log)|, PageSize)
      ensures r.Ok? && Parses(r.value) ==> Sound(log, |old(log)|, pid)
      ensures r.Ok? && !Parses(r.value) ==> !AllHarmless(log, |old(log)|, pid)
      ensures r.Err? && initial.statPid == pid ==>
                || (!AllHarmless(log, |old(log)|, pid) && Caused(log, |old(log)|, pid, r.error))
                || (r.error == ProcNotFound
                    && |old(log)| < |log| && log[|log| - 1].leaf == Stat && log[|log| - 1].seen.Some?
                    && log[|log| - 1].seen.value.startTime != initial.startTime)
      ensures NoFaults(log, |old(log)|) ==> if r.Ok? then Parses(r.value) else r.error == ProcNotFound
    {
      hide Genuine, Records, Blames, Harmless, Parses, Shows, MaybeShows, BodyShows;
      if initial.statPid != pid {
        return Err(ProcNotFound);
      }
      var body :- ReadBody(pid, initial.blocked);
      ghost var logBody := log;
      var _ :- ReadFinal(pid, initial);
      BodyShowsLater(body, logBody, log, |old(log)|, |old(log)|);
      return Ok(body);
    }

    /** read_adjacent_cpu_pair and the parse behind it: the process's counters, and right behind them the system's. */
    method ReadCpuPair(pid: int) returns (r: Result<Content, ProcError>)
      requires Valid()
      modifies this`log
      ensures Valid() && old(log) < log
      ensures r.Ok? ==>
                && |log| == |old(log)| + 2 && log[|old(log)|].leaf.Stat? && log[|old(log)| + 1].leaf.SystemStat?
                && log[|old(log)|].seen == Some(r.value.task) && Shows(r.value, Stat, log, |old(log)|)
                && r.value.intact && log[|old(log)|].fault.Clean? && log[|old(log)| + 1].fault.Clean?
                && (if r.value.task.statPid == pid then Sound(log, |old(log)|, pid)
                    else !Harmless(log[|old(log)|], pid) && Blames(log[|old(log)|], ProcNotFound, pid))
      ensures r.Err? ==> !AllHarmless(log, |old(log)|, pid) && Caused(log, |old(log)|, pid, r.error)
      ensures NoFaults(log, |old(log)|) && r.Err? ==> r.error == ProcNotFound
    {
      hide Genuine, Records, Blames, Harmless;
      var stat :- ReadRequired(Stat, pid);
      ghost var logStat := log;
      var _ :- ReadGlobal(SystemStat, pid);
      if !stat.intact {
        UnparsedIsCause(stat, Stat, logStat, log, |old(log)|, pid);
        return Err(Parse);
      }
      if stat.task.statPid != pid {
        WrongPidIsCause(log[|old(log)|], pid);
      }
      return Ok(stat);
    }

    method ReadSnapshot(pid: int) returns (r: Result<Snapshot, ProcError>)
      requires Valid()
      modifies this`log
      ensures Valid() && old(log) < log
      ensures r.Ok? ==>
                && |old(log)| + 2 < |log|
                && log[|old(log)|].leaf.Stat? && log[|old(log)|].seen == Some(r.value.stat.task)
                && log[|old(log)| + 1].leaf.SystemStat? && log[|log| - 1].leaf.Stat?
                && log[|old(log)| + 1].fault.Clean? && log[|log| - 1].fault.Clean?
                && r.value.stat.task.statPid == pid && r.value.stat.intact && CgroupParses(r.value.body.cgroup)
                && Shows(r.value.stat, Stat, log, |old(log)|) && BodyShows(r.value.body, log, |old(log)|)
                && (r.value.body.stack.NotAsked? <==> !r.value.stat.task.blocked)
                && HasRead(log, |old(log)|, PageSize)
      ensures r.Ok? && r.value.body.status.intact ==> Sound(log, |old(log)|, pid)
      ensures r.Ok? && !r.value.body.status.intact ==> !AllHarmless(log, |old(log)|, pid)
      ensures r.Err? ==>
                || (!AllHarmless(log, |old(log)|, pid) && Caused(log, |old(log)|, pid, r.error))
                || (r.error == ProcNotFound && |old(log)| < |log| - 1 && StartsDiffer(log[|old(log)|], log[|log| - 1]))
      ensures NoFaults(log, |old(log)|) ==> if r.Ok? then r.value.body.status.intact else r.error == ProcNotFound
    {
      hide Genuine, Records, Blames, Harmless, CgroupParses, Shows, MaybeShows, BodyShows;
      var stat :- ReadCpuPair(pid);
      ghost var logStat := log;
      var body :- ReadStable(pid, stat.task);
      ShowsLater(stat, Stat, logStat, log, |old(log)|, |old(log)|);
      BodyShowsLater(body, log, log, |logStat|, |old(log)|);
      if !CgroupParses(body.cgroup) {
        CgroupIsCause(body, log, |old(log)|, pid);
        return Err(Parse);
      }
      return Ok(Snapshot(stat, body));
    }

    method CpuCounters(pid: int) returns (r: Result<Task, ProcError>)
      requires Valid()
      modifies this`log
      ensures Valid() && old(log) < log
      ensures r.Ok? ==>
                && |log| == |old(log)| + 2 && log[|old(log)|].leaf.Stat? && log[|old(log)| + 1].leaf.SystemStat?
                && log[|old(log)|].seen == Some(r.value)
                && log[|old(log)|].fault.Clean? && log[|old(log)| + 1].fault.Clean?
                && (r.value.statPid == pid ==> Sound(log, |old(log)|, pid))
      ensures r.Err? ==> !AllHarmless(log, |old(log)|, pid) && Caused(log, |old(log)|, pid, r.error)
      ensures NoFaults(log, |old(log)|) && r.Err? ==> r.error == ProcNotFound
    {
      hide Genuine, Records, Blames, Harmless, Shows;
      var stat :- ReadCpuPair(pid);
      return Ok(stat.task);
    }

    /** A snapshot and a second look at the CPU counters. It succeeds exactly when no read was harmed and all of them hit
        one process; then everything it returns is that process's. */
    method Introspect(pid: int) returns (r: Result<Snapshot, ProcError>)
      requires Valid()
      modifies this`log
      ensures Valid() && old(log) <= log
      ensures r.Ok? <==> pid >= 1 && Undisturbed(log, |old(log)|, pid)
      ensures r.Ok? ==>
                && Shows(r.value.stat, Stat, log, |old(log)|) && BodyShows(r.value.body, log, |old(log)|)
                && (r.value.body.stack.NotAsked? <==> !r.value.stat.task.blocked)
                && ReadsOneProcess(log, |old(log)|, r.value.stat.task.generation)
                && AllFrom(r.value, r.value.stat.task.generation)
                && r.value.stat.intact && Parses(r.value.body) && r.value.stat.task.statPid == pid
      ensures NoFaults(log, |old(log)|) && pid >= 1 && r.Err? ==> r.error == ProcNotFound
      ensures pid < 1 ==> r == Err(InvalidPid) && log == old(log)
      ensures r.Err? && pid >= 1 ==>
                || Caused(log, |old(log)|, pid, r.error)
                || (r.error == ProcNotFound && !OneGeneration(log, |old(log)|))
      // the system's counters are read right behind the process's, both times, and stat once more behind the body
      ensures r.Ok? ==>
                && |old(log)| + 4 < |log| && HasRead(log, |old(log)|, PageSize)
                && log[|old(log)|].leaf.Stat? && log[|old(log)| + 1].leaf.SystemStat?
                && log[|log| - 3].leaf.Stat? && log[|log| - 2].leaf.Stat? && log[|log| - 1].leaf.SystemStat?
                && log[|old(log)| + 1].fault.Clean? && log[|log| - 3].fault.Clean?
                && log[|log| - 2].fault.Clean? && log[|log| - 1].fault.Clean?
    {
      hide Genuine, Records, Blames, Harmless, Shows, BodyShows, AllFrom;
      if pid < 1 {
        return Err(InvalidPid);
      }
      var read := ReadSnapshot(pid);
      if read.Err? {
        if StartsDiffer(log[|old(log)|], log[|log| - 1]) && |old(log)| < |log| - 1 {
          StartsDifferDisturb(log, world, |old(log)|, |old(log)|, |log| - 1, pid);
        }
        return read;
      }
      var snapshot := read.value;
      ghost var was := log;
      var sample := CpuCounters(pid);
      if sample.Err? {
        assert Caused(log, |old(log)|, pid, sample.error);
        if !sample.error.ProcNotFound? {
          SampleIsCause(log, |old(log)|, pid, sample.error);
        }
        return Err(if sample.error.ProcNotFound? then ProcNotFound else CpuSampleFailed);
      }
      ShowsLater(snapshot.stat, Stat, was, log, |old(log)|, |old(log)|);
      BodyShowsLater(snapshot.body, was, log, |old(log)|, |old(log)|);
      if sample.value.startTime != snapshot.stat.task.startTime {
        StartsDifferDisturb(log, world, |old(log)|, |old(log)|, |log| - 2, pid);
        return Err(ProcNotFound);
      }
      EqualStartsUndisturbed(log, world, |old(log)|, |log| - 2, pid);
      if !snapshot.body.status.intact {
        StatusIsCause(snapshot.body, log, |old(log)|, pid);
        return Err(Parse);
      }
      ShownByOne(snapshot, log, |old(log)|, snapshot.stat.task.generation);
      return Ok(snapshot);
    }
  }
}
