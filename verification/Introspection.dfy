/** The worker protocol and the assembled result together: what a shutdown leaves in the evidence. */
module Introspection {
  import opened LowFields
  import opened Confidence
  import opened Assembly
  import opened SymbolizerShutdown
  import SymbolizerLifecycle
  import SymbolizerWorker

  /** The successful branch of assemble_default_introspection after the attempt: shutdown, then the record of its failure. */
  method AssembleAfterShutdown(
    attempt: Attempt, timeout: nat, accepted: bool, threadAt: nat -> SymbolizerWorker.WorkerPc, elapsed: nat -> nat,
    describe: Describe)
    returns (outcome: Outcome, polls: nat)
    requires SleepsLongEnough(elapsed, timeout)
    ensures 1 <= polls <= CeilDiv(timeout, POLL_INTERVAL) + 1
    ensures forall k: nat | k < polls - 1 :: !threadAt(k).Exited?
    ensures attempt.Refused? ==> outcome == Failed(attempt.error)
    ensures attempt.Found? ==>
              && outcome.Ready? && outcome.level0.Consistent()
              && TellsAll(outcome.level0.lowFields.fields, attempt.findings,
                          WorkerEvidence(Spawned(Verdict(accepted, threadAt(polls - 1))), describe))
  {
    hide AllEvidence, TellsAll, WorkerEvidence;
    var result;
    result, polls := Shutdown(timeout, accepted, threadAt, elapsed);
    outcome := AssembleDefault(Spawned(result), attempt, describe);
  }

  function Failure(error: SymbolizerLifecycle.SymbolizeError, describe: Describe): seq<Evidence> {
    [Evidence(FRAMES_PATH, NoSymbol, ShutdownReason(error, describe))]
  }

  /** The client lives until its worker's shutdown has returned. So in whatever run, and with whatever looks, shutdown
      leaves nothing on the record exactly if it found the worker gone in good order, a panic exactly if it found it gone
      with one, and otherwise a timeout; that the worker had stopped by itself is never recorded. */
  lemma ShutdownLeavesTheTruth(run: SymbolizerWorker.Run, request: nat, at: nat -> nat, looks: nat, describe: Describe)
    requires LooksInto(run, request, at, looks) && run.states[request].clients > 0
    ensures var accepted := SymbolizerLifecycle.AcceptsShutdown(run.states[request].life);
            var left := WorkerEvidence(Spawned(Verdict(accepted, run.states[at(looks - 1)].pc)), describe);
            if exists k | 0 <= k < looks :: GoneAt(run, at, k, false) then left == []
            else if exists k | 0 <= k < looks :: GoneAt(run, at, k, true) then
              left == Failure(SymbolizerLifecycle.WorkerPanic, describe)
            else left == Failure(SymbolizerLifecycle.ShutdownTimeout, describe)
  {
    ShutdownTellsTheRun(run, request, at, looks);
    hide SymbolizerWorker.IsRun, SymbolizerWorker.Apply, SymbolizerWorker.Enabled, ShutdownReason;
  }
}
