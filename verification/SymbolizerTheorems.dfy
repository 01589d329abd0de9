/** What every run of the worker protocol guarantees. */
module SymbolizerTheorems {
  import opened Common
  import opened SymbolizerLifecycle
  import opened SymbolizerWorker
  import opened SymbolizerInvariant

  /** Requests are settled in the order they were accepted, each at most once, and all of them by the time the worker is gone. */
  lemma SettledOnceInOrder(run: Run, i: nat)
    requires IsRun(run) && i < |run.states|
    ensures var s := run.states[i];
            && SettledRequests(s.settlements) <= s.accepted
            && (forall j, k | 0 <= j < k < |s.settlements| :: s.settlements[j].request.id != s.settlements[k].request.id)
            && (s.pc.Exited? ==> SettledRequests(s.settlements) == s.accepted)
  {
    RunKeepsInv(run, i);
    var s := run.states[i];
    forall j, k | 0 <= j < k < |s.settlements| ensures s.settlements[j].request.id != s.settlements[k].request.id {
      assert s.accepted[j] == SettledRequests(s.settlements)[j] && s.accepted[k] == SettledRequests(s.settlements)[k];
    }
  }

  lemma BegunArePrefix(run: Run, i: nat)
    requires IsRun(run) && i < |run.states|
    ensures var s := run.states[i];
            && s.begun <= s.accepted
            && |s.settlements| <= |s.accepted|
            && (forall k | 0 <= k < |s.settlements| :: s.settlements[k].request == s.accepted[k])
  {
    RunKeepsInv(run, i);
    SettledOnceInOrder(run, i);
    var s := run.states[i];
    var settled := SettledRequests(s.settlements);
    hide Init, Apply, Enabled, SettlementContents, HandleHistory, AcceptedBelongToCalls, CallersSeeOwnChannel;
    assert s.begun <= settled + InHand(s.pc);
    assert settled + InHand(s.pc) <= s.accepted;
    forall k | 0 <= k < |s.settlements| ensures s.settlements[k].request == s.accepted[k] {
      assert settled[k] == s.accepted[k];
    }
  }

  /** The backend ran a prefix of the accepted requests, and what settled each request follows from whether it ran. */
  lemma BackendRanAPrefix(run: Run, i: nat)
    requires IsRun(run) && i < |run.states|
    ensures var s := run.states[i];
            && s.begun <= s.accepted
            && |s.finished| <= |s.begun| <= |s.finished| + 1
            && (forall k | 0 <= k < |s.settlements| && k < |s.begun| ::
                  && k < |s.finished|
                  && s.settlements[k] == Replied(s.begun[k], CompletionReply(s.finished[k])))
            && (forall k | |s.begun| <= k < |s.settlements| ::
                  && s.settlements[k].request !in s.begun
                  && (s.settlements[k].Replied? ==>
                        s.settlements[k].outcome == Failed(if WorkerPanicked(s) then WorkerPanic else WorkerStopped)))
  {
    RunKeepsInv(run, i);
    SettledOnceInOrder(run, i);
    BegunArePrefix(run, i);
    var s := run.states[i];
    hide Init, Apply, Enabled, HandleHistory, CallersSeeOwnChannel, BegunInOrder, Conservation;
    forall k | |s.begun| <= k < |s.settlements| ensures s.settlements[k].request !in s.begun {
      assert forall j | 0 <= j < |s.begun| :: s.begun[j] == s.accepted[j];
    }
  }

  /** A received answer is the one put into the caller's own channel, and if it came from the backend it was computed for the caller's own address. */
  lemma CallerGetsOwnAnswer(run: Run, i: nat, id: CallId) returns (k: nat)
    requires IsRun(run) && i < |run.states|
    requires id in run.states[i].calls
    requires run.states[i].calls[id].pc.Done? && run.states[i].calls[id].pc.cause.Received?
    ensures var s := run.states[i]; var call := s.calls[id];
            && k < |s.settlements|
            && s.settlements[k] == Replied(Request(id, call.addr), call.pc.outcome)
            && (forall j | 0 <= j < |s.settlements| && s.settlements[j].request.id == id :: j == k)
            && (if k < |s.begun| then
                  k < |s.finished| && s.begun[k] == Request(id, call.addr) && call.pc.outcome == CompletionReply(s.finished[k])
                else
                  call.pc.outcome == Failed(if WorkerPanicked(s) then WorkerPanic else WorkerStopped))
  {
    RunKeepsInv(run, i);
    SettledOnceInOrder(run, i);
    BackendRanAPrefix(run, i);
    var s := run.states[i];
    k :| 0 <= k < |s.settlements| && s.settlements[k] == Replied(Request(id, s.calls[id].addr), s.calls[id].pc.outcome);
  }

  /** Every request that was sent, even one whose caller has timed out, is settled exactly once by the time the worker is gone. */
  lemma SentIsSettledAtExit(run: Run, i: nat, id: CallId) returns (k: nat)
    requires IsRun(run) && i < |run.states| && run.states[i].pc.Exited?
    requires id in run.states[i].calls && HasSent(run.states[i].calls[id].pc)
    ensures var s := run.states[i];
            && k < |s.settlements|
            && s.settlements[k].request == Request(id, s.calls[id].addr)
            && forall j | 0 <= j < |s.settlements| && s.settlements[j].request.id == id :: j == k
  {
    RunKeepsInv(run, i);
    SettledOnceInOrder(run, i);
    var s := run.states[i];
    k :| 0 <= k < |s.accepted| && s.accepted[k] == Request(id, s.calls[id].addr);
    assert SettledRequests(s.settlements)[k] == s.accepted[k];
  }

  /** A disconnected caller always finds a terminal lifecycle: the default of `unwrap_or` is dead, and WorkerPanic is reported exactly after a panic. */
  lemma DisconnectFindsTerminalState(run: Run, i: nat, id: CallId)
    requires IsRun(run) && i < |run.states| && id in run.states[i].calls
    ensures var s := run.states[i]; var pc := s.calls[id].pc;
            && (pc.AfterSendLost? || pc.AfterReplyLost? ==>
                  TerminalError(s.life) == Some(if WorkerPanicked(s) then WorkerPanic else WorkerStopped))
            && (pc.Done? && (pc.cause.SendLost? || pc.cause.ReplyLost?) ==>
                  pc.outcome == Failed(if WorkerPanicked(s) then WorkerPanic else WorkerStopped))
  {
    RunKeepsInv(run, i);
  }

  /** Neither `unreachable!` arm can be taken. */
  lemma UnreachableArmsAreDead(run: Run, i: nat)
    requires IsRun(run) && i < |run.states|
    ensures var s := run.states[i];
            && (s.pc.Begin? ==> s.life != Executing)
            && (s.pc.Finish? ==> s.life != Running)
            && !s.pc.Aborted?
  {
    RunKeepsInv(run, i);
  }

  lemma StepFrame(s: State, step: Step)
    requires Enabled(s, step)
    ensures var t := Apply(s, step);
            && s.settlements <= t.settlements && s.accepted <= t.accepted
            && s.begun <= t.begun && s.finished <= t.finished
            && (!IsHandleStep(step) ==> t.handle == s.handle)
  {
    if IsWorkerStep(step) {
      WorkerLeavesCalls(s, step);
      WorkerExtendsHistories(s, step);
    } else if IsHandleStep(step) {
      HandleLeavesRest(s, step);
    } else {
      CallLeavesWorker(s, step);
    }
  }

  /** Histories only grow: what was settled, accepted, begun or finished stays so. */
  lemma {:induction false} HistoriesGrow(run: Run, i: nat, j: nat)
    requires IsRun(run) && i <= j < |run.states|
    ensures run.states[i].settlements <= run.states[j].settlements
    ensures run.states[i].accepted <= run.states[j].accepted
    ensures run.states[i].begun <= run.states[j].begun
    ensures run.states[i].finished <= run.states[j].finished
    decreases j - i
  {
    hide Apply, ApplyWorker, ApplyCall, ApplyHandle, Enabled;
    if i < j {
      HistoriesGrow(run, i, j - 1);
      StepFrame(run.states[j - 1], run.steps[j - 1]);
    }
  }

  lemma WorkerAfterTerminal(s: State, step: Step)
    requires PointMatchesLifecycle(s) && Enabled(s, step) && IsWorkerStep(step) && TerminalError(s.life).Some?
    ensures var t := ApplyWorker(s, step);
            TerminalError(t.life).Some? && t.begun == s.begun && !s.pc.Exited?
  {}

  lemma HandleAfterTerminal(s: State, step: Step)
    requires Enabled(s, step) && IsHandleStep(step) && TerminalError(s.life).Some?
    ensures ApplyHandle(s, step).life == s.life
  {}

  lemma StepAfterTerminal(s: State, step: Step)
    requires PointMatchesLifecycle(s) && Enabled(s, step) && TerminalError(s.life).Some?
    ensures TerminalError(Apply(s, step).life).Some?
    ensures Apply(s, step).begun == s.begun
    ensures s.pc.Exited? ==> Apply(s, step).life == s.life && Apply(s, step).pc == s.pc
  {
    if IsWorkerStep(step) {
      WorkerAfterTerminal(s, step);
    } else if IsHandleStep(step) {
      HandleLeavesRest(s, step);
      HandleAfterTerminal(s, step);
    } else {
      CallLeavesWorker(s, step);
    }
  }

  /** Once the lifecycle is terminal no backend call begins any more; at most the one in progress ends. */
  lemma {:induction false} NoBackendCallAfterShutdown(run: Run, i: nat, j: nat)
    requires IsRun(run) && i <= j < |run.states| && TerminalError(run.states[i].life).Some?
    ensures TerminalError(run.states[j].life).Some?
    ensures run.states[j].begun == run.states[i].begun
    ensures |run.states[j].finished| <= |run.states[i].begun|
    ensures run.states[i].pc.Exited? ==> run.states[j].life == run.states[i].life && run.states[j].pc == run.states[i].pc
    decreases j - i
  {
    hide Apply, ApplyWorker, ApplyCall, ApplyHandle, Enabled;
    RunKeepsInv(run, j);
    if i < j {
      NoBackendCallAfterShutdown(run, i, j - 1);
      RunKeepsInv(run, j - 1);
      StepAfterTerminal(run.states[j - 1], run.steps[j - 1]);
    }
  }

  /** Requests that were accepted and that the worker has not taken up yet. */
  function Waiting(s: State): int {
    |s.accepted| - |s.settlements| - |InHand(s.pc)|
  }

  /** A call that sends is refused exactly if as many requests are waiting as the queue holds, accepted behind all others
      if there are fewer, and lost exactly if the receiver is gone. */
  lemma SendIsRefusedExactlyWhenFull(run: Run, i: nat, id: CallId)
    requires IsRun(run) && i < |run.steps| && run.steps[i] == CallTrySend(id)
    ensures var s, t := run.states[i], run.states[i + 1];
            && id in s.calls && id in t.calls && 0 <= Waiting(s) <= s.capacity
            && (t.calls[id].pc == Done(Full, Failed(QueueFull)) <==> !ReceiverDropped(s.pc) && Waiting(s) == s.capacity)
            && (t.calls[id].pc == AwaitReply <==> !ReceiverDropped(s.pc) && Waiting(s) < s.capacity)
            && (t.calls[id].pc == AfterSendLost <==> ReceiverDropped(s.pc))
            && t.accepted == s.accepted + if t.calls[id].pc.AwaitReply? then [Request(id, s.calls[id].addr)] else []
  {
    RunKeepsInv(run, i);
    hide HandleHistory, CallersSeeOwnChannel, AcceptedBelongToCalls, SettlementContents, BegunInOrder, BackendHistory;
  }

  /** A call is let in exactly while nobody has asked the worker to stop and it has neither stopped nor panicked. */
  lemma CheckLetsInExactlyWhileOpen(run: Run, i: nat, id: CallId)
    requires IsRun(run) && i < |run.steps| && run.steps[i] == CallCheck(id)
    ensures var s, t := run.states[i], run.states[i + 1];
            && id in t.calls
            && (t.calls[id].pc == TrySend <==> s.life.Running? || s.life.Executing?)
            && (t.calls[id].pc == Done(Turned, Failed(WorkerStopped)) <==> s.life.ShutdownRequested? || s.life.Stopped?)
            && (t.calls[id].pc == Done(Turned, Failed(WorkerPanic)) <==> s.life.Panicked?)
  {
    assert Enabled(run.states[i], run.steps[i]);
  }

  /** The poll takes one signal if there is one, and does not go on serving after a signal or without a handle. */
  lemma PollTakesTheSignal(run: Run, i: nat)
    requires IsRun(run) && i < |run.steps| && run.steps[i] == WorkerPoll
    ensures var s, t := run.states[i], run.states[i + 1];
            && t.signals == (if s.signals > 0 then s.signals - 1 else 0)
            && (s.signals > 0 || !s.senderAlive ==> TerminalError(t.life).Some?)
            && (s.signals == 0 && s.senderAlive ==> t.life == s.life)
            && t == s.(signals := t.signals, life := t.life, pc := CheckShutdown)
  {
    assert Enabled(run.states[i], run.steps[i]);
    hide ApplyCall, ApplyHandle;
  }

  predicate IsSignal(step: Step) {
    step.HandleSignal? || step.HandleDropSignal?
  }

  /** The last signal comes after the worker's last look at the channel. */
  predicate SignalIsPending(steps: seq<Step>)
    decreases |steps|
  {
    && steps != []
    && (IsSignal(steps[|steps| - 1])
        || (steps[|steps| - 1] != WorkerPoll && SignalIsPending(steps[..|steps| - 1])))
  }

  predicate HasSignalled(handle: HandlePc) {
    !handle.Held? && !handle.Requested? && !handle.DropRequested?
  }

  predicate SignalsMove(s: State, step: Step, t: State) {
    && t.signals == (if IsSignal(step) then 1 else if step == WorkerPoll then 0 else s.signals)
    && (HasSignalled(t.handle) <==> HasSignalled(s.handle) || IsSignal(step))
    && (t.senderAlive <==> s.senderAlive && step != HandleDropSender)
  }

  lemma WorkerMovesSignals(s: State, step: Step)
    requires Enabled(s, step) && IsWorkerStep(step) && s.signals <= 1
    ensures SignalsMove(s, step, ApplyWorker(s, step))
  {}

  lemma HandleMovesSignals(s: State, step: Step)
    requires Enabled(s, step) && IsHandleStep(step) && (!HasSignalled(s.handle) ==> s.signals == 0)
    ensures SignalsMove(s, step, ApplyHandle(s, step))
  {}

  lemma StepMovesSignals(s: State, step: Step)
    requires Enabled(s, step) && s.signals <= 1 && (!HasSignalled(s.handle) ==> s.signals == 0)
    ensures SignalsMove(s, step, Apply(s, step))
  {
    if IsWorkerStep(step) {
      WorkerMovesSignals(s, step);
    } else if IsHandleStep(step) {
      HandleMovesSignals(s, step);
    } else {
      CallLeavesWorker(s, step);
    }
  }

  lemma PendingAfter(steps: seq<Step>, step: Step)
    ensures !SignalIsPending([])
    ensures SignalIsPending(steps + [step]) <==> IsSignal(step) || (step != WorkerPoll && SignalIsPending(steps))
  {
    assert (steps + [step])[..|steps|] == steps;
  }

  /** The shutdown channel holds the handle's one signal exactly from the sending until the worker's next look, and its
      sender is there exactly until it is dropped. */
  lemma {:induction false} SignalIsThereUntilPolled(run: Run, i: nat)
    requires IsRun(run) && i < |run.states|
    ensures var s := run.states[i];
            && (!HasSignalled(s.handle) ==> s.signals == 0)
            && s.signals == (if SignalIsPending(run.steps[..i]) then 1 else 0)
            && (s.senderAlive <==> HandleDropSender !in run.steps[..i])
  {
    hide Apply, Enabled, IsSignal, HasSignalled, SignalIsPending;
    if i > 0 {
      SignalIsThereUntilPolled(run, i - 1);
      StepMovesSignals(run.states[i - 1], run.steps[i - 1]);
      PendingAfter(run.steps[..i - 1], run.steps[i - 1]);
      assert run.steps[..i] == run.steps[..i - 1] + [run.steps[i - 1]];
    } else {
      PendingAfter([], WorkerPoll);
    }
  }

  lemma StepMovesClients(s: State, step: Step)
    requires Enabled(s, step)
    ensures Apply(s, step).clients + (if step == ClientDrop then 1 else 0) == s.clients + (if step == ClientClone then 1 else 0)
  {
    hide ApplyWorker, ApplyHandle;
    if IsWorkerStep(step) {
      WorkerLeavesCalls(s, step);
    } else if IsHandleStep(step) {
      HandleLeavesRest(s, step);
    } else {
      hide Enabled;
    }
  }

  /** The live clients are the first one and its clones less those dropped. */
  lemma {:induction false} ClientsAreCounted(run: Run, i: nat)
    requires IsRun(run) && i < |run.states|
    ensures var taken := multiset(run.steps[..i]);
            run.states[i].clients + taken[ClientDrop] == 1 + taken[ClientClone]
  {
    hide Apply, Enabled;
    if i > 0 {
      ClientsAreCounted(run, i - 1);
      StepMovesClients(run.states[i - 1], run.steps[i - 1]);
      assert run.steps[..i] == run.steps[..i - 1] + [run.steps[i - 1]];
    }
  }

  /** An end that is not the worker's answer says why. */
  predicate SaysWhy(pc: CallPc) {
    pc.Done? ==>
      match pc.cause
      case Full => pc.outcome == Failed(QueueFull)
      case TimedOut => pc.outcome == Failed(Timeout)
      case Turned => pc.outcome in {Failed(WorkerStopped), Failed(WorkerPanic)}
      case _ => true
  }

  lemma StepSaysWhy(s: State, step: Step)
    requires Enabled(s, step) && forall id <- s.calls :: SaysWhy(s.calls[id].pc)
    ensures forall id <- Apply(s, step).calls :: SaysWhy(Apply(s, step).calls[id].pc)
  {
    if IsWorkerStep(step) {
      WorkerLeavesCalls(s, step);
    } else if IsHandleStep(step) {
      HandleLeavesRest(s, step);
    } else {
      CallMovesOne(s, step);
    }
  }

  /** QueueFull, Timeout and being turned away are told to exactly the calls they happened to. */
  lemma {:induction false} EveryEndSaysWhy(run: Run, i: nat)
    requires IsRun(run) && i < |run.states|
    ensures forall id <- run.states[i].calls :: SaysWhy(run.states[i].calls[id].pc)
  {
    if i > 0 {
      EveryEndSaysWhy(run, i - 1);
      hide Apply, Enabled, Init, SaysWhy;
      StepSaysWhy(run.states[i - 1], run.steps[i - 1]);
    }
  }

  lemma WorkerKeepsPanic(s: State, step: Step)
    requires PointMatchesLifecycle(s) && Enabled(s, step) && IsWorkerStep(step) && s.life.Panicked?
    ensures ApplyWorker(s, step).life.Panicked?
  {}

  /** A recorded panic is never covered up, by a shutdown request, by the end of a request or by an orderly stop. */
  lemma {:induction false} PanicIsFinal(run: Run, i: nat, j: nat)
    requires IsRun(run) && i <= j < |run.states| && run.states[i].life.Panicked?
    ensures run.states[j].life.Panicked?
    decreases j - i
  {
    hide ApplyWorker, ApplyCall, ApplyHandle, Enabled, Init;
    if i < j {
      PanicIsFinal(run, i, j - 1);
      RunKeepsInv(run, j - 1);
      var s, step := run.states[j - 1], run.steps[j - 1];
      if IsWorkerStep(step) {
        WorkerKeepsPanic(s, step);
      } else if IsHandleStep(step) {
        HandleAfterTerminal(s, step);
      } else {
        CallLeavesWorker(s, step);
      }
    }
  }

  /** Whatever was requested in between, a worker that is gone has left Panicked behind exactly if a backend call has
      panicked, and Stopped otherwise. */
  lemma ExitTellsThePanic(run: Run, i: nat)
    requires IsRun(run) && i < |run.states| && run.states[i].pc.Exited?
    ensures run.states[i].life == if Unwound in run.states[i].finished then Panicked else Stopped
    ensures run.states[i].pc == Exited(Unwound in run.states[i].finished)
  {
    RunKeepsInv(run, i);
  }

  /** The call that was executing when shutdown came is settled with its own completion, not with a rejection. */
  lemma ExecutingCallKeepsItsResult(run: Run, i: nat, j: nat)
    requires IsRun(run) && i <= j < |run.states|
    requires run.states[i].pc.Execute? && run.states[i].life.ShutdownRequested?
    requires |run.states[i].settlements| < |run.states[j].settlements|
    ensures var request := run.states[i].pc.request; var k := |run.states[i].settlements|;
            && k < |run.states[j].finished|
            && run.states[j].settlements[k] == Replied(request, CompletionReply(run.states[j].finished[k]))
  {
    RunKeepsInv(run, i);
    HistoriesGrow(run, i, j);
    BackendRanAPrefix(run, j);
    NoBackendCallAfterShutdown(run, i, j);
    var k := |run.states[i].settlements|;
    assert run.states[i].begun[k] == run.states[i].pc.request;
  }

  // The handle

  predicate HandleKnows(handle: HandlePc, seen: WorkerState, clientsThen: nat) {
    match handle
    case Requested(a, b) => a == seen && b == clientsThen
    case Polling(a, b) => a == seen && b == clientsThen
    case Joined(a, b, _, _) => a == seen && b == clientsThen
    case GaveUp(a, b, _) => a == seen && b == clientsThen
    case _ => false
  }

  lemma HandleStepRemembers(s: State, step: Step, seen: WorkerState, clientsThen: nat)
    requires Enabled(s, step) && HandleKnows(Apply(s, step).handle, seen, clientsThen)
    ensures if step == HandleRequest then seen == s.life && clientsThen == s.clients else HandleKnows(s.handle, seen, clientsThen)
  {
    StepFrame(s, step);
  }

  lemma HandleStepKeeps(s: State, step: Step, seen: WorkerState, clientsThen: nat)
    requires Enabled(s, step) && HandleKnows(s.handle, seen, clientsThen)
    ensures HandleKnows(Apply(s, step).handle, seen, clientsThen)
  {
    StepFrame(s, step);
  }

  /** What the handle remembers is what the lifecycle and the client count were when it asked. */
  lemma {:induction false} HandleRemembersItsRequest(run: Run, i: nat, seen: WorkerState, clientsThen: nat) returns (k: nat)
    requires IsRun(run) && i < |run.states| && HandleKnows(run.states[i].handle, seen, clientsThen)
    ensures k < i && run.steps[k] == HandleRequest
    ensures run.states[k].life == seen && run.states[k].clients == clientsThen
  {
    var before, step := run.states[i - 1], run.steps[i - 1];
    StepFrame(before, step);
    HandleStepRemembers(before, step, seen, clientsThen);
    if step == HandleRequest {
      k := i - 1;
    } else {
      k := HandleRemembersItsRequest(run, i - 1, seen, clientsThen);
    }
  }

  /** A shutdown that joined the worker reports the panic if there was one; otherwise it is Ok unless the worker had
      already stopped by itself, which takes the loss of every client. */
  lemma ShutdownOutcome(run: Run, i: nat)
    requires IsRun(run) && i < |run.states| && run.states[i].handle.Joined?
    ensures var s := run.states[i]; var h := s.handle;
            && s.pc == Exited(h.workerPanicked)
            && (h.workerPanicked <==> WorkerPanicked(s))
            && (h.result == ShutdownErr(WorkerPanic) <==> WorkerPanicked(s))
            && (h.result == ShutdownErr(WorkerStopped) <==> h.seen.Stopped? && !WorkerPanicked(s))
            && (h.result == ShutdownErr(WorkerStopped) ==> h.clientsThen == 0)
            && (0 < h.clientsThen ==> (h.result == ShutdownOk <==> !WorkerPanicked(s)))
  {
    RunKeepsInv(run, i);
  }

  lemma ShutdownNeverStoppedWithClient(run: Run, k: nat, i: nat)
    requires IsRun(run) && k < i < |run.states| && run.steps[k] == HandleRequest && 0 < run.states[k].clients
    ensures var h := run.states[i].handle;
            && (h.Joined? ==> h.result != ShutdownErr(WorkerStopped))
            && (h.GaveUp? ==> h.result == ShutdownErr(ShutdownTimeout))
            && !h.Held?
  {
    RunKeepsInv(run, i);
    HandleAfterRequest(run, k, i);
  }

  lemma {:induction false} HandleAfterRequest(run: Run, k: nat, i: nat)
    requires IsRun(run) && k < i < |run.states| && run.steps[k] == HandleRequest
    ensures HandleKnows(run.states[i].handle, run.states[k].life, run.states[k].clients)
    decreases i - k
  {
    if k < i - 1 {
      HandleAfterRequest(run, k, i - 1);
      HandleStepKeeps(run.states[i - 1], run.steps[i - 1], run.states[k].life, run.states[k].clients);
    }
  }

  /** At its request the handle finds a lifecycle that nobody has asked to stop, and a stopped one only without clients. */
  lemma RequestFindsLife(run: Run, k: nat)
    requires IsRun(run) && k < |run.steps| && run.steps[k] == HandleRequest
    ensures var s := run.states[k]; !s.life.ShutdownRequested? && (s.life.Stopped? ==> s.clients == 0)
  {
    RunKeepsInv(run, k);
  }

  // Progress

  /** The worker is never stuck: until it is gone one of its own steps is enabled. */
  lemma WorkerNeverStuck(run: Run, i: nat) returns (step: Step)
    requires IsRun(run) && i < |run.states| && !run.states[i].pc.Exited?
    ensures IsWorkerStep(step) && Enabled(run.states[i], step)
  {
    RunKeepsInv(run, i);
    var s := run.states[i];
    match s.pc {
      case PollShutdown => step := WorkerPoll;
      case CheckShutdown => step := WorkerCheck;
      case Receive => step := if s.queue == [] then WorkerReceiveTimeout else WorkerTake;
      case Begin(_) => step := WorkerBegin;
      case Refuse(_, _) => step := WorkerRefuse;
      case Execute(_) => step := BackendPanics;
      case Reply(_, _) => step := WorkerReply;
      case Finish => step := WorkerFinish;
      case RecordPanic(_) => step := WorkerRecordPanic;
      case ReplyPanic(_) => step := WorkerReplyPanic;
      case Drain(_, _) => step := if s.queue == [] then WorkerDrainEmpty else WorkerDrainOne;
      case RecordStop => step := WorkerRecordStop;
      case DropReceiver(_) => step := WorkerDropReceiver;
      case Ending(_) => step := WorkerEnd;
    }
  }

  /** Calls that passed the lifecycle check and have not sent yet. */
  ghost function AboutToSend(calls: map<CallId, Call>): set<CallId> {
    set id | id in calls && calls[id].pc.TrySend?
  }

  function StepsToExit(pc: WorkerPc): nat {
    match pc
    case Exited(_) | Aborted => 0
    case Ending(_) => 1
    case DropReceiver(_) => 2
    case RecordStop => 3
    case Drain(_, _) => 4
    case CheckShutdown | Refuse(_, _) | Finish | ReplyPanic(_) => 5
    case PollShutdown | Begin(_) | Reply(_, _) | RecordPanic(_) => 6
    case Receive | Execute(_) => 7
  }

  ghost function Rank(s: State): nat {
    StepsToExit(s.pc) + |s.queue| + |AboutToSend(s.calls)|
  }

  lemma MoveShrinksSenders(calls: map<CallId, Call>, id: CallId, call: Call)
    requires !call.pc.TrySend?
    ensures AboutToSend(calls[id := call]) == AboutToSend(calls) - {id}
    ensures |AboutToSend(calls[id := call])| == |AboutToSend(calls)| - (if id in AboutToSend(calls) then 1 else 0)
  {
    assert AboutToSend(calls[id := call]) == AboutToSend(calls) - {id};
  }

  lemma SettlingRank(s: State, step: Step)
    requires PointMatchesLifecycle(s) && Enabled(s, step) && IsSettlingStep(step)
    ensures var t := ApplyWorker(s, step);
            t.calls == s.calls && StepsToExit(t.pc) + |t.queue| < StepsToExit(s.pc) + |s.queue|
  {
    hide RequestShutdown, MarkStopped, Disconnections, BeginRequest, FinishRequest, TerminalError, ShutdownObserved;
  }

  lemma OtherwiseRank(s: State, step: Step)
    requires PointMatchesLifecycle(s) && Enabled(s, step) && IsWorkerStep(step) && !IsSettlingStep(step)
    requires TerminalError(s.life).Some?
    ensures var t := ApplyWorker(s, step);
            t.calls == s.calls && StepsToExit(t.pc) + |t.queue| < StepsToExit(s.pc) + |s.queue|
  {
    hide RequestShutdown, MarkStopped, Disconnections, Settle;
  }

  lemma WorkerRank(s: State, step: Step)
    requires PointMatchesLifecycle(s) && Enabled(s, step) && IsWorkerStep(step) && TerminalError(s.life).Some?
    ensures var t := ApplyWorker(s, step);
            t.calls == s.calls && StepsToExit(t.pc) + |t.queue| < StepsToExit(s.pc) + |s.queue|
  {
    hide PointMatchesLifecycle, Enabled, ApplyWorker, StepsToExit, TerminalError;
    if IsSettlingStep(step) {
      SettlingRank(s, step);
    } else {
      OtherwiseRank(s, step);
    }
  }

  lemma CallRank(s: State, step: Step)
    requires Enabled(s, step) && IsCallStep(step) && TerminalError(s.life).Some?
    ensures var t := ApplyCall(s, step);
            t.pc == s.pc && |t.queue| + |AboutToSend(t.calls)| <= |s.queue| + |AboutToSend(s.calls)|
  {
    var t := ApplyCall(s, step);
    match step {
      case CallStart(id, _) => MoveShrinksSenders(s.calls, id, t.calls[id]);
      case CallCheck(id) => MoveShrinksSenders(s.calls, id, t.calls[id]);
      case CallTrySend(id) =>
        MoveShrinksSenders(s.calls, id, t.calls[id]);
        assert id in AboutToSend(s.calls);
      case CallReceive(id, _) => MoveShrinksSenders(s.calls, id, t.calls[id]);
      case CallTimeout(id) => MoveShrinksSenders(s.calls, id, t.calls[id]);
      case CallSeesDisconnect(id) => MoveShrinksSenders(s.calls, id, t.calls[id]);
      case CallResolve(id) => MoveShrinksSenders(s.calls, id, t.calls[id]);
      case _ =>
    }
  }

  lemma RankAfterTerminal(s: State, step: Step)
    requires PointMatchesLifecycle(s) && Enabled(s, step) && TerminalError(s.life).Some?
    ensures Rank(Apply(s, step)) + (if IsWorkerStep(step) then 1 else 0) <= Rank(s)
  {
    if IsWorkerStep(step) {
      WorkerRank(s, step);
    } else if IsHandleStep(step) {
      HandleLeavesRest(s, step);
    } else {
      CallRank(s, step);
    }
  }

  function WorkerStepCount(steps: seq<Step>): nat {
    if steps == [] then 0
    else WorkerStepCount(steps[..|steps| - 1]) + (if IsWorkerStep(steps[|steps| - 1]) then 1 else 0)
  }

  lemma CountLast(steps: seq<Step>, i: nat, j: nat)
    requires i < j <= |steps|
    ensures WorkerStepCount(steps[i..j]) ==
            WorkerStepCount(steps[i..j - 1]) + if IsWorkerStep(steps[j - 1]) then 1 else 0
  {
    assert steps[i..j][..j - 1 - i] == steps[i..j - 1];
  }

  lemma RankZeroIsExit(run: Run, i: nat)
    requires IsRun(run) && i < |run.states| && Rank(run.states[i]) == 0
    ensures run.states[i].pc.Exited?
  {
    RunKeepsInv(run, i);
    hide IsRun;
  }

  /** Shutdown ends: however callers interfere, the worker takes at most Rank more steps, and is gone after that many. */
  lemma {:induction false} ShutdownTerminates(run: Run, i: nat, j: nat)
    requires IsRun(run) && i <= j < |run.states| && TerminalError(run.states[i].life).Some?
    ensures WorkerStepCount(run.steps[i..j]) + Rank(run.states[j]) <= Rank(run.states[i])
    ensures WorkerStepCount(run.steps[i..j]) == Rank(run.states[i]) ==> run.states[j].pc.Exited?
    decreases j - i
  {
    hide Apply, Enabled, Rank, Init, IsWorkerStep;
    if i == j {
      assert run.steps[i..j] == [];
    } else {
      ShutdownTerminates(run, i, j - 1);
      NoBackendCallAfterShutdown(run, i, j - 1);
      RunKeepsInv(run, j - 1);
      RankAfterTerminal(run.states[j - 1], run.steps[j - 1]);
      CountLast(run.steps, i, j);
      hide WorkerStepCount, Inv;
    }
    if Rank(run.states[j]) == 0 {
      RankZeroIsExit(run, j);
    }
  }
}
