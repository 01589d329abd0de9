/** The two loops around the worker: the handle waiting for it, and the worker rejecting what is left. */
module SymbolizerShutdown {
  import opened Common
  import opened SymbolizerLifecycle
  import opened SymbolizerWorker
  import opened SymbolizerTheorems

  /** WORKER_POLL_INTERVAL in nanoseconds */
  const POLL_INTERVAL: nat := 5_000_000

  function CeilDiv(a: nat, b: nat): nat
    requires 0 < b
  {
    (a + b - 1) / b
  }

  /** `elapsed(k)` is the time since the wait began at the k-th look at the clock; a sleep lasts at least as long as asked. */
  ghost predicate SleepsLongEnough(elapsed: nat -> nat, timeout: nat) {
    forall k: nat | elapsed(k) < timeout :: elapsed(k) + Min(POLL_INTERVAL, timeout - elapsed(k)) <= elapsed(k + 1)
  }

  /** The polling loop of `shutdown`. `isFinished(k)` is what the k-th look at the worker thread finds. */
  method AwaitWorker(timeout: nat, isFinished: nat -> bool, elapsed: nat -> nat) returns (finished: bool, polls: nat)
    requires SleepsLongEnough(elapsed, timeout)
    ensures 1 <= polls <= CeilDiv(timeout, POLL_INTERVAL) + 1
    ensures forall k: nat | k < polls - 1 :: !isFinished(k) && elapsed(k) < timeout
    ensures finished == isFinished(polls - 1)
    ensures !finished ==> timeout <= elapsed(polls - 1)
  {
    polls := 1;
    finished := isFinished(0);
    while !finished
      invariant 1 <= polls
      invariant finished == isFinished(polls - 1)
      invariant forall k: nat | k < polls - 1 :: !isFinished(k) && elapsed(k) < timeout
      invariant Min(timeout, POLL_INTERVAL * (polls - 1)) <= elapsed(polls - 1)
      invariant polls == 1 || POLL_INTERVAL * (polls - 2) < timeout
      decreases timeout - Min(timeout, POLL_INTERVAL * (polls - 1)), !finished
    {
      var now := elapsed(polls - 1);
      if timeout <= now {
        return;
      }
      // the subtraction is on natural numbers, so it could not be written if it might underflow
      var pause: nat := Min(POLL_INTERVAL, timeout - now);
      assert now + pause <= elapsed(polls);
      polls := polls + 1;
      finished := isFinished(polls - 1);
    }
  }

  /** What shutdown makes of its last look at the worker thread; `accepted` is what its request returned. */
  function Verdict(accepted: bool, thread: WorkerPc): ShutdownResult {
    if !thread.Exited? then ShutdownErr(ShutdownTimeout)
    else if thread.panicking then ShutdownErr(WorkerPanic)
    else if accepted then ShutdownOk
    else ShutdownErr(WorkerStopped)
  }

  /** shutdown behind its request: the poll loop, then the join. `threadAt(k)` is what the k-th look finds. */
  method Shutdown(timeout: nat, accepted: bool, threadAt: nat -> WorkerPc, elapsed: nat -> nat)
    returns (result: ShutdownResult, polls: nat)
    requires SleepsLongEnough(elapsed, timeout)
    ensures 1 <= polls <= CeilDiv(timeout, POLL_INTERVAL) + 1
    ensures forall k: nat | k < polls - 1 :: !threadAt(k).Exited?
    ensures result == Verdict(accepted, threadAt(polls - 1))
    ensures result == ShutdownErr(ShutdownTimeout) ==> timeout <= elapsed(polls - 1)
  {
    var gone := (k: nat) => threadAt(k).Exited?;
    var finished;
    finished, polls := AwaitWorker(timeout, gone, elapsed);
    forall k: nat | k < polls - 1 ensures !threadAt(k).Exited? {
      assert !gone(k);
    }
    if !finished {
      return ShutdownErr(ShutdownTimeout), polls;
    }
    if threadAt(polls - 1).panicking {
      return ShutdownErr(WorkerPanic), polls;
    }
    result := if accepted then ShutdownOk else ShutdownErr(WorkerStopped);
  }

  /** The looks that the handle takes at the worker thread of a run: none before its own request, each one no earlier
      than the one before, and none after the first that finds the thread gone. `at(k)` is the state the k-th one
      falls into. */
  ghost predicate LooksInto(run: Run, request: nat, at: nat -> nat, looks: nat) {
    && 1 <= looks
    && IsRun(run) && request < |run.steps| && run.steps[request] == HandleRequest
    && (forall k | 0 <= k < looks :: request < at(k) < |run.states|)
    && (forall j, k | 0 <= j <= k < looks :: at(j) <= at(k))
    && (forall k | 0 <= k < looks - 1 :: !run.states[at(k)].pc.Exited?)
  }

  predicate GoneAt(run: Run, at: nat -> nat, k: nat, panicking: bool) {
    at(k) < |run.states| && run.states[at(k)].pc == Exited(panicking)
  }

  /** What shutdown says of a run in which it took these looks. */
  ghost predicate Tells(result: ShutdownResult, run: Run, clientsThen: nat, at: nat -> nat, looks: nat) {
    && (result == ShutdownErr(ShutdownTimeout) <==>
          forall k | 0 <= k < looks :: !GoneAt(run, at, k, true) && !GoneAt(run, at, k, false))
    && (result == ShutdownErr(WorkerPanic) <==> exists k | 0 <= k < looks :: GoneAt(run, at, k, true))
    && (result == ShutdownErr(WorkerStopped) ==> clientsThen == 0)
    && (clientsThen > 0 ==> (result == ShutdownOk <==> exists k | 0 <= k < looks :: GoneAt(run, at, k, false)))
  }

  lemma VerdictTells(run: Run, clientsThen: nat, accepted: bool, at: nat -> nat, looks: nat)
    requires 1 <= looks && forall k | 0 <= k < looks :: at(k) < |run.states|
    requires forall k | 0 <= k < looks - 1 :: !run.states[at(k)].pc.Exited?
    requires run.states[at(looks - 1)].pc == Exited(false) && !accepted ==> clientsThen == 0
    ensures Tells(Verdict(accepted, run.states[at(looks - 1)].pc), run, clientsThen, at, looks)
  {
    var last := looks - 1;
    assert GoneAt(run, at, last, true) || GoneAt(run, at, last, false) <==> run.states[at(last)].pc.Exited?;
  }

  /** In whatever run, shutdown tells what its looks found: a timeout exactly if the worker was there at each of them, a
      panic exactly if it was found gone with one, and, with a client alive at the request, Ok exactly if it was found
      gone without one. The step of the protocol that ends the wait agrees. */
  lemma ShutdownTellsTheRun(run: Run, request: nat, at: nat -> nat, looks: nat)
    requires LooksInto(run, request, at, looks)
    ensures Tells(Verdict(AcceptsShutdown(run.states[request].life), run.states[at(looks - 1)].pc),
                  run, run.states[request].clients, at, looks)
    ensures var s := run.states[at(looks - 1)];
            var step := if s.pc.Exited? then HandleJoin else HandleTimeout;
            s.handle.Polling? ==>
              && Enabled(s, step)
              && Apply(s, step).handle.result == Verdict(AcceptsShutdown(run.states[request].life), s.pc)
  {
    AtTheLook(run, request, at(looks - 1));
    hide IsRun, Apply, Enabled, Tells, AcceptsShutdown;
    VerdictTells(run, run.states[request].clients, AcceptsShutdown(run.states[request].life), at, looks);
  }

  /** What a later state of the run remembers of the request. */
  lemma AtTheLook(run: Run, request: nat, i: nat)
    requires IsRun(run) && request < i < |run.states| && run.steps[request] == HandleRequest
    ensures var then_, s := run.states[request], run.states[i];
            && (s.pc == Exited(false) && !AcceptsShutdown(then_.life) ==> then_.clients == 0)
            && (s.handle.Polling? ==>
                  && Enabled(s, HandleTimeout)
                  && Apply(s, HandleTimeout).handle.result == ShutdownErr(ShutdownTimeout)
                  && (s.pc.Exited? ==>
                        && Enabled(s, HandleJoin)
                        && Apply(s, HandleJoin).handle.result == JoinResult(then_.life, s.pc.panicking)))
  {
    HandleAfterRequest(run, request, i);
    RequestFindsLife(run, request);
    if run.states[i].pc == Exited(false) && run.states[request].life.Panicked? {
      PanicIsFinal(run, request, i);
      ExitTellsThePanic(run, i);
    }
  }

  /** The receiving end of the request queue together with the reply channels of what it carried. */
  class RequestReceiver {
    var queue: seq<Request>
    var settlements: seq<Settlement>

    constructor (queue: seq<Request>)
      ensures this.queue == queue && settlements == []
    {
      this.queue := queue;
      settlements := [];
    }

    /** reject_pending_requests */
    method RejectPending(error: SymbolizeError)
      modifies this
      ensures queue == []
      ensures |settlements| == |old(settlements)| + |old(queue)|
      ensures settlements[..|old(settlements)|] == old(settlements)
      ensures forall i | 0 <= i < |old(queue)| ::
                settlements[|old(settlements)| + i] == Replied(old(queue)[i], Failed(error))
    {
      var done := 0;
      while queue != []
        invariant done <= |old(queue)|
        invariant queue == old(queue)[done..]
        invariant |settlements| == |old(settlements)| + done
        invariant settlements[..|old(settlements)|] == old(settlements)
        invariant forall i | 0 <= i < done :: settlements[|old(settlements)| + i] == Replied(old(queue)[i], Failed(error))
        decreases |queue|
      {
        var request := queue[0];
        queue := queue[1..];
        settlements := settlements + [Replied(request, Failed(error))];
        done := done + 1;
      }
    }
  }

  /** The same loop as undisturbed steps of the protocol. */
  ghost function DrainAll(s: State): State
    requires s.pc.Drain?
    decreases |s.queue|
  {
    if s.queue == [] then s else DrainAll(Apply(s, WorkerDrainOne))
  }

  lemma {:induction false} DrainAllRejectsInOrder(s: State)
    requires s.pc.Drain?
    ensures var t := DrainAll(s);
            && t == s.(queue := [], settlements := t.settlements)
            && |t.settlements| == |s.settlements| + |s.queue|
            && t.settlements[..|s.settlements|] == s.settlements
            && forall i | 0 <= i < |s.queue| :: t.settlements[|s.settlements| + i] == Replied(s.queue[i], Failed(s.pc.error))
    decreases |s.queue|
  {
    if s.queue != [] {
      var u := Apply(s, WorkerDrainOne);
      DrainAllRejectsInOrder(u);
      var t := DrainAll(s);
      assert u.settlements[..|s.settlements|] == s.settlements;
      forall i | 0 <= i < |s.queue| ensures t.settlements[|s.settlements| + i] == Replied(s.queue[i], Failed(s.pc.error)) {
        if i == 0 {
          assert t.settlements[..|u.settlements|][|s.settlements|] == u.settlements[|s.settlements|];
        } else {
          assert t.settlements[|u.settlements| + (i - 1)] == Replied(u.queue[i - 1], Failed(s.pc.error));
        }
      }
      assert t.settlements[..|s.settlements|] == t.settlements[..|u.settlements|][..|s.settlements|];
    }
  }
}
