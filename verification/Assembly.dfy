/** From what a snapshot found to the result that is handed out, with every failure of the symbolizer on the record. */
module Assembly {
  import opened Common
  import opened LowFields
  import opened Confidence
  import SymbolizerLifecycle
  import SymbolizerWorker

  lemma MergedOne(fields: seq<LowField>, e: Evidence)
    ensures MergedAll(fields, [e]) == Merged(fields, e)
  {}

  lemma MergedTwo(fields: seq<LowField>, d: Evidence, e: Evidence)
    ensures MergedAll(fields, [d, e]) == Merged(Merged(fields, d), e)
  {
    assert [d, e][..1] == [d];
    MergedOne(fields, d);
  }

  method RecordFrames(recorder: Recorder, frames: seq<Frame>)
    modifies recorder
    ensures recorder.fields == MergedAll(old(recorder.fields), UnsymbolizedFrames(frames, |frames|))
  {
    hide FramePath, Merged;
    for i := 0 to |frames|
      invariant recorder.fields == MergedAll(old(recorder.fields), UnsymbolizedFrames(frames, i))
    {
      ghost var front := UnsymbolizedFrames(frames, i);
      if FrameConfidence(frames[i]).NoSymbol? {
        ghost var e := Evidence(
          FramePath(frames[i].idx), NoSymbol, UNSYMBOLIZED);
        assert (front + [e])[..|front|] == front;
        recorder.Merge(
          FramePath(frames[i].idx), NoSymbol, UNSYMBOLIZED);
      } else {
        assert front + [] == front;
      }
    }
  }

  method RecordMismatch(recorder: Recorder, f: Findings, hotspot: Hotspot)
    modifies recorder
    ensures recorder.fields == MergedAll(old(recorder.fields), MismatchEvidence(f, hotspot))
  {
    hide FramePath, Merged, Normalize;
    if hotspot.Blocked? && hotspot.frames != [] && f.wchan.Some? && f.stack != [] {
      var expected, actual := Normalize(f.wchan.value), Normalize(f.stack[0].raw);
      if actual != expected {
        var reason := "wchan/top frame mismatch: wchan=" + expected + ", stack=" + actual;
        var path, confidence := FramePath(hotspot.frames[0].idx), FrameConfidence(hotspot.frames[0]);
        MergedTwo(recorder.fields, Evidence(WCHAN_PATH, Kallsyms, reason), Evidence(path, confidence, reason));
        recorder.Merge(WCHAN_PATH, Kallsyms, reason);
        recorder.Merge(path, confidence, reason);
      }
    }
  }

  /** build_confidence */
  method RecordConfidence(recorder: Recorder, f: Findings, hotspot: Hotspot)
    modifies recorder
    ensures recorder.fields == MergedAll(old(recorder.fields), FramesEvidence(hotspot) + MismatchEvidence(f, hotspot))
  {
    MergedAllInParts(recorder.fields, FramesEvidence(hotspot), MismatchEvidence(f, hotspot));
    hide MismatchEvidence, UnsymbolizedFrames;
    if hotspot.Blocked? {
      RecordFrames(recorder, hotspot.frames);
    }
    RecordMismatch(recorder, f, hotspot);
  }

  /** A condition, and what it is evidence of. */
  method RecordIf(recorder: Recorder, holds: bool, path: string, reason: string)
    modifies recorder
    ensures recorder.fields == MergedAll(old(recorder.fields), When(holds, path, reason))
  {
    MergedOne(recorder.fields, Evidence(path, NoSymbol, reason));
    if holds {
      recorder.Merge(path, NoSymbol, reason);
    }
  }

  method RecordState(recorder: Recorder, f: Findings)
    modifies recorder
    ensures recorder.fields == MergedAll(old(recorder.fields), StateEvidence(f))
  {
    hide MergedAll, Merged, When;
    ghost var was := recorder.fields;
    var sleeps := (f.runState.S? || f.runState.D?) && f.wchan.None?;
    RecordIf(recorder, f.runState.Unknown?, "state.run_state", UNKNOWN_STATE);
    RecordIf(recorder, sleeps, WCHAN_PATH, NO_WCHAN);
    MergedAllInParts(was, When(f.runState.Unknown?, "state.run_state", UNKNOWN_STATE), When(sleeps, WCHAN_PATH, NO_WCHAN));
  }

  method RecordAbsences(recorder: Recorder, f: Findings)
    modifies recorder
    ensures recorder.fields == MergedAll(old(recorder.fields), AbsenceEvidence(f))
  {
    hide MergedAll, Merged, When, MissingSwitches;
    ghost var was := recorder.fields;
    var lacking := !f.hasVoluntary || !f.hasNonvoluntary;
    ghost var all := When(lacking, "resource.ctxt_switches", "status missing " + MissingSwitches(f));
    RecordIf(recorder, lacking, "resource.ctxt_switches", "status missing " + MissingSwitches(f));
    RecordIf(recorder, !f.hasCgroup, "identity.cgroup", "cgroup path unavailable");
    MergedAllInParts(was, all, When(!f.hasCgroup, "identity.cgroup", "cgroup path unavailable"));
    all := all + When(!f.hasCgroup, "identity.cgroup", "cgroup path unavailable");
    RecordIf(recorder, !f.hasExe, "identity.exe", "exe target unavailable");
    MergedAllInParts(was, all, When(!f.hasExe, "identity.exe", "exe target unavailable"));
    all := all + When(!f.hasExe, "identity.exe", "exe target unavailable");
    var reason := if f.cpuReason.Some? then f.cpuReason.value else "";
    RecordIf(recorder, f.cpuReason.Some?, "resource.pct_cpu", reason);
    MergedAllInParts(was, all, When(f.cpuReason.Some?, "resource.pct_cpu", reason));
  }

  lemma AllEvidenceTellsAll(f: Findings, fate: seq<Evidence>)
    ensures TellsAll(MergedAll([], AllEvidence(f) + fate), f, fate)
    ensures AllEvidence(f) + [] == AllEvidence(f)
  {
    NothingIsLost(AllEvidence(f) + fate);
    hide AllEvidence, Records, TellsAll, MergedAll;
    RecordsTellAll(MergedAll([], AllEvidence(f) + fate), f, fate);
  }

  /** build_level0: the summary of all the evidence. */
  method BuildLevel0(f: Findings, encodedBytes: (seq<LowField>, real) -> nat) returns (level0: Level0)
    ensures fresh(level0) && fresh(level0.lowFields) && level0.Consistent()
    ensures level0.hotspot == HotspotOf(f) && level0.encodedBytes == encodedBytes
    ensures level0.lowFields.fields == MergedAll([], AllEvidence(f))
    ensures TellsAll(level0.lowFields.fields, f, [])
  {
    AllEvidenceTellsAll(f, []);
    hide TellsAll;
    hide MergedAll, HotspotOf, HotspotEvidence, FramesEvidence, MismatchEvidence, AsEvidence, StateEvidence;
    hide AbsenceEvidence;
    var hotspot, initial := BuildHotspot(f);
    var recorder := new Recorder(initial);
    ghost var all := HotspotEvidence(f);
    RecordConfidence(recorder, f, hotspot);
    MergedAllInParts([], all, FramesEvidence(hotspot) + MismatchEvidence(f, hotspot));
    all := all + (FramesEvidence(hotspot) + MismatchEvidence(f, hotspot));
    assert all == HotspotEvidence(f) + FramesEvidence(hotspot) + MismatchEvidence(f, hotspot);
    recorder.MergeDegradations(f.procDegradations);
    MergedAllInParts([], all, AsEvidence(f.procDegradations));
    all := all + AsEvidence(f.procDegradations);
    recorder.MergeDegradations(f.mapsDegradations);
    MergedAllInParts([], all, AsEvidence(f.mapsDegradations));
    all := all + AsEvidence(f.mapsDegradations);
    RecordState(recorder, f);
    MergedAllInParts([], all, StateEvidence(f));
    all := all + StateEvidence(f);
    RecordAbsences(recorder, f);
    MergedAllInParts([], all, AbsenceEvidence(f));
    level0 := new Level0(hotspot, recorder, encodedBytes);
  }

  /** What introspecting through some symbolizer comes to: findings, or the procfs error that ends it. */
  datatype Attempt = Found(findings: Findings, encodedBytes: (seq<LowField>, real) -> nat) | Refused(error: string)

  /** How the symbolizer worker fares: what its shutdown returned, or why it was never there. */
  datatype Worker =
    Spawned(shutdown: SymbolizerWorker.ShutdownResult) | NotSpawned(error: SymbolizerLifecycle.SymbolizeError)

  /** The text of an error. */
  type Describe = SymbolizerLifecycle.SymbolizeError -> string

  datatype Outcome = Ready(level0: Level0) | Failed(error: string)

  function ShutdownReason(error: SymbolizerLifecycle.SymbolizeError, describe: Describe): string {
    "symbolizer_shutdown_error_kind=" + SymbolizerLifecycle.Kind(error) + "; worker_shutdown=failed; detail=" + describe(error)
  }

  function InitReason(error: SymbolizerLifecycle.SymbolizeError, describe: Describe): string {
    "symbolizer_init_error_kind=" + SymbolizerLifecycle.Kind(error) + "; fallback=raw_kallsyms; detail=" + describe(error)
  }

  function WorkerEvidence(worker: Worker, describe: Describe): seq<Evidence> {
    match worker
    case Spawned(ShutdownOk) => []
    case Spawned(ShutdownErr(error)) => [Evidence(FRAMES_PATH, NoSymbol, ShutdownReason(error, describe))]
    case NotSpawned(error) => [Evidence(FRAMES_PATH, NoSymbol, InitReason(error, describe))]
  }

  /** assemble_default_introspection. `attempt` is made through the worker, or through the fallback symbolizer where
      there is no worker. A failing worker never turns a result into an error; it is one more piece of evidence. */
  method AssembleDefault(worker: Worker, attempt: Attempt, describe: Describe) returns (outcome: Outcome)
    ensures attempt.Refused? ==> outcome == Failed(attempt.error)
    ensures attempt.Found? ==>
              && outcome.Ready? && fresh(outcome.level0) && fresh(outcome.level0.lowFields)
              && outcome.level0.Consistent()
              && outcome.level0.hotspot == HotspotOf(attempt.findings)
              && outcome.level0.encodedBytes == attempt.encodedBytes
              && outcome.level0.lowFields.fields == MergedAll([], AllEvidence(attempt.findings) + WorkerEvidence(worker, describe))
    ensures attempt.Found? ==>
              TellsAll(outcome.level0.lowFields.fields, attempt.findings, WorkerEvidence(worker, describe))
  {
    hide AllEvidence, Merged, Overall, Tokens, HotspotOf, TellsAll, ShutdownReason, InitReason;
    match attempt {
      case Refused(error) => return Failed(error);
      case Found(findings, encodedBytes) =>
        ghost var all := AllEvidence(findings);
        var level0 := BuildLevel0(findings, encodedBytes);
        AllEvidenceTellsAll(findings, WorkerEvidence(worker, describe));
        MergedAllInParts([], all, WorkerEvidence(worker, describe));
        match worker {
          case Spawned(ShutdownOk) =>
          case Spawned(ShutdownErr(error)) =>
            MergedOne(level0.lowFields.fields, Evidence(FRAMES_PATH, NoSymbol, ShutdownReason(error, describe)));
            level0.RecordSymbolizerDegradation(ShutdownReason(error, describe));
          case NotSpawned(error) =>
            MergedOne(level0.lowFields.fields, Evidence(FRAMES_PATH, NoSymbol, InitReason(error, describe)));
            level0.RecordSymbolizerDegradation(InitReason(error, describe));
        }
        return Ready(level0);
    }
  }
}
