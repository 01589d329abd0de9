/** The inductive invariant of the worker protocol, one aspect at a time. */
module SymbolizerInvariant {
  import opened Common
  import opened SymbolizerLifecycle
  import opened SymbolizerWorker

  /** The request the worker has taken from the queue and not settled yet. */
  function InHand(pc: WorkerPc): seq<Request> {
    match pc
    case Begin(request) => [request]
    case Refuse(request, _) => [request]
    case Execute(request) => [request]
    case Reply(request, _) => [request]
    case RecordPanic(request) => [request]
    case ReplyPanic(request) => [request]
    case _ => []
  }

  function SettledRequests(settlements: seq<Settlement>): seq<Request> {
    seq(|settlements|, i requires 0 <= i < |settlements| => settlements[i].request)
  }

  predicate WorkerPanicked(s: State) {
    Unwound in s.finished
  }

  /** Program point of the worker against the lifecycle. */
  ghost predicate PointMatchesLifecycle(s: State) {
    match s.pc
    case PollShutdown | CheckShutdown | Receive | Begin(_) => s.life.Running? || s.life.ShutdownRequested?
    case Execute(_) | Reply(_, _) | Finish | RecordPanic(_) => s.life.Executing? || s.life.ShutdownRequested?
    case Refuse(_, error) => s.life.ShutdownRequested? && error == WorkerStopped
    case ReplyPanic(_) => s.life.Panicked?
    case Drain(error, panicking) =>
      if panicking then s.life.Panicked? && error == WorkerPanic
      else s.life.ShutdownRequested? && error == WorkerStopped
    case RecordStop => s.life.ShutdownRequested? || (s.life.Running? && s.clients == 0)
    case DropReceiver(panicking) => if panicking then s.life.Panicked? else s.life.Stopped?
    case Ending(panicking) => if panicking then s.life.Panicked? else s.life.Stopped?
    case Exited(panicking) => if panicking then s.life.Panicked? else s.life.Stopped?
    case Aborted => false
  }

  predicate Unwinding(pc: WorkerPc) {
    pc.RecordPanic? || pc.ReplyPanic?
    || (pc.Drain? && pc.panicking) || (pc.DropReceiver? && pc.panicking)
    || (pc.Ending? && pc.panicking) || (pc.Exited? && pc.panicking)
  }

  /** Settlement follows acceptance order and nothing is lost or invented. */
  ghost predicate Conservation(s: State) {
    && s.accepted == SettledRequests(s.settlements) + InHand(s.pc) + s.queue
    && (ReceiverDropped(s.pc) ==> s.queue == [])
  }

  ghost predicate BackendHistory(s: State) {
    && (s.pc.Execute? ==> |s.begun| == |s.finished| + 1)
    && (!s.pc.Execute? ==> |s.begun| == |s.finished|)
    && (s.pc.Reply? ==> s.finished != [] && s.finished[|s.finished| - 1] == Returned(s.pc.outcome))
    && (s.pc.RecordPanic? || s.pc.ReplyPanic? ==> s.finished != [] && s.finished[|s.finished| - 1] == Unwound)
    && (Unwinding(s.pc) <==> WorkerPanicked(s))
  }

  /** Every backend call was begun for the request that stands at the same place in settlement order. */
  ghost predicate BegunInOrder(s: State) {
    match s.pc
    case Execute(_) | Reply(_, _) | RecordPanic(_) | ReplyPanic(_) =>
      s.begun == SettledRequests(s.settlements) + InHand(s.pc)
    case PollShutdown | CheckShutdown | Receive | Begin(_) | Finish =>
      s.begun == SettledRequests(s.settlements)
    case _ =>
      |s.begun| <= |s.settlements| && s.begun == SettledRequests(s.settlements)[..|s.begun|]
  }

  function CompletionReply(completion: Completion): Outcome {
    match completion
    case Returned(outcome) => outcome
    case Unwound => Failed(WorkerPanic)
  }

  /** What each settlement says: the result of its own backend call, or one uniform rejection. */
  ghost predicate SettlementContents(s: State) {
    forall i | 0 <= i < |s.settlements| ::
      if i < |s.begun| then
        i < |s.finished| && s.settlements[i] == Replied(s.settlements[i].request, CompletionReply(s.finished[i]))
      else if s.settlements[i].Replied? then
        s.settlements[i].outcome == Failed(if WorkerPanicked(s) then WorkerPanic else WorkerStopped)
      else
        ReceiverDropped(s.pc)
  }

  predicate HasSent(pc: CallPc) {
    pc.AwaitReply? || pc.AfterReplyLost?
    || (pc.Done? && (pc.cause.Received? || pc.cause.TimedOut? || pc.cause.ReplyLost?))
  }

  ghost predicate AcceptedBelongToCalls(s: State) {
    && (forall i | 0 <= i < |s.accepted| ::
          && s.accepted[i].id in s.calls
          && s.calls[s.accepted[i].id].addr == s.accepted[i].addr
          && HasSent(s.calls[s.accepted[i].id].pc))
    && (forall i, j | 0 <= i < j < |s.accepted| :: s.accepted[i].id != s.accepted[j].id)
    && (forall id <- s.calls | HasSent(s.calls[id].pc) :: Request(id, s.calls[id].addr) in s.accepted)
  }

  /** What a caller has learned is what its own channel holds. */
  ghost predicate CallerSees(
    id: CallId, call: Call, settlements: seq<Settlement>, receiverDropped: bool, workerPanicked: bool)
  {
    && (call.pc.Done? && call.pc.cause.Received? ==> Replied(Request(id, call.addr), call.pc.outcome) in settlements)
    && (call.pc.AfterReplyLost? || (call.pc.Done? && call.pc.cause.ReplyLost?) ==>
          Disconnected(Request(id, call.addr)) in settlements)
    && (call.pc.AfterSendLost? || call.pc.AfterReplyLost? ==> receiverDropped)
    && (call.pc.Done? && (call.pc.cause.SendLost? || call.pc.cause.ReplyLost?) ==>
          receiverDropped && call.pc.outcome == Failed(if workerPanicked then WorkerPanic else WorkerStopped))
  }

  ghost predicate CallersSeeOwnChannel(s: State) {
    forall id <- s.calls :: CallerSees(id, s.calls[id], s.settlements, ReceiverDropped(s.pc), WorkerPanicked(s))
  }

  ghost predicate CallsKeepAClient(s: State) {
    s.clients == 0 ==> AllCallsDone(s)
  }

  ghost predicate HandleHistory(s: State) {
    match s.handle
    case Held =>
      && s.signals == 0 && s.senderAlive
      && !s.life.ShutdownRequested?
      && (s.life.Stopped? ==> s.clients == 0)
    case Requested(seen, clientsThen) => SeenAtRequest(s, seen, clientsThen)
    case Polling(seen, clientsThen) => SeenAtRequest(s, seen, clientsThen)
    case Joined(seen, clientsThen, workerPanicked, result) =>
      && SeenAtRequest(s, seen, clientsThen)
      && s.pc == Exited(workerPanicked)
      && result == JoinResult(seen, workerPanicked)
    case GaveUp(seen, clientsThen, result) =>
      SeenAtRequest(s, seen, clientsThen) && result == ShutdownErr(ShutdownTimeout)
    case DropRequested => TerminalError(s.life).Some?
    case DropSignalled => TerminalError(s.life).Some?
  }

  ghost predicate SeenAtRequest(s: State, seen: WorkerState, clientsThen: nat) {
    && !seen.ShutdownRequested?
    && (seen.Stopped? ==> clientsThen == 0 && s.life.Stopped?)
    && (seen.Panicked? ==> s.life.Panicked?)
    && TerminalError(s.life).Some?
  }

  ghost predicate Inv(s: State) {
    && 1 <= s.capacity
    && |s.queue| <= s.capacity
    && PointMatchesLifecycle(s)
    && Conservation(s)
    && BackendHistory(s)
    && BegunInOrder(s)
    && SettlementContents(s)
    && AcceptedBelongToCalls(s)
    && CallersSeeOwnChannel(s)
    && CallsKeepAClient(s)
    && HandleHistory(s)
  }

  lemma InitEstablishes(s: State)
    requires Init(s)
    ensures Inv(s)
  {}

  lemma SettledAppend(settlements: seq<Settlement>, more: seq<Settlement>)
    ensures SettledRequests(settlements + more) == SettledRequests(settlements) + SettledRequests(more)
  {}

  lemma SettledAppendOne(settlements: seq<Settlement>, settlement: Settlement)
    ensures SettledRequests(settlements + [settlement]) == SettledRequests(settlements) + [settlement.request]
  {}

  lemma SettledDisconnections(queue: seq<Request>)
    ensures SettledRequests(Disconnections(queue)) == queue
  {}

  // Worker steps

  /** A step that touches neither the queue nor the settlements, or settles the request in hand. */
  lemma HandOverKeepsConservation(s: State, t: State)
    requires Conservation(s) && !ReceiverDropped(t.pc) && t.queue == s.queue && t.accepted == s.accepted
    requires || (t.settlements == s.settlements && InHand(t.pc) == InHand(s.pc))
             || (exists x: Settlement :: t.settlements == s.settlements + [x] && InHand(s.pc) == [x.request] && InHand(t.pc) == [])
    ensures Conservation(t)
  {
    if !(t.settlements == s.settlements && InHand(t.pc) == InHand(s.pc)) {
      var x: Settlement :| t.settlements == s.settlements + [x] && InHand(s.pc) == [x.request] && InHand(t.pc) == [];
      SettledAppendOne(s.settlements, x);
      assert SettledRequests(t.settlements) + InHand(t.pc) == SettledRequests(s.settlements) + InHand(s.pc);
    }
  }

  lemma MoveHead(settled: seq<Request>, queue: seq<Request>)
    requires queue != []
    ensures settled + [] + queue == settled + [queue[0]] + queue[1..]
    ensures settled + [] + queue == (settled + [queue[0]]) + [] + queue[1..]
  {}

  lemma MoveAll(settled: seq<Request>, queue: seq<Request>)
    ensures settled + [] + queue == (settled + queue) + [] + []
  {}

  lemma QueueKeepsConservation(s: State, step: Step)
    requires Conservation(s) && Enabled(s, step)
    requires step.WorkerTake? || step.WorkerDrainOne? || step.WorkerDropReceiver? || step.WorkerEnd?
    ensures Conservation(ApplyWorker(s, step))
  {
    var settled := SettledRequests(s.settlements);
    if step.WorkerDropReceiver? {
      SettledAppend(s.settlements, Disconnections(s.queue));
      SettledDisconnections(s.queue);
      MoveAll(settled, s.queue);
    } else if step.WorkerTake? {
      MoveHead(settled, s.queue);
    } else if step.WorkerDrainOne? {
      MoveHead(settled, s.queue);
      SettledAppendOne(s.settlements, Replied(s.queue[0], Failed(s.pc.error)));
    }
  }

  lemma WorkerKeepsConservation(s: State, step: Step)
    requires Conservation(s) && PointMatchesLifecycle(s) && Enabled(s, step) && IsWorkerStep(step)
    ensures Conservation(ApplyWorker(s, step))
  {
    if step.WorkerTake? || step.WorkerDrainOne? || step.WorkerDropReceiver? || step.WorkerEnd? {
      QueueKeepsConservation(s, step);
    } else {
      var t := ApplyWorker(s, step);
      if step.WorkerRefuse? {
        assert t.settlements == s.settlements + [Replied(s.pc.request, Failed(s.pc.error))];
      } else if step.WorkerReply? {
        assert t.settlements == s.settlements + [Replied(s.pc.request, s.pc.outcome)];
      } else if step.WorkerReplyPanic? {
        assert t.settlements == s.settlements + [Replied(s.pc.request, Failed(WorkerPanic))];
      }
      HandOverKeepsConservation(s, t);
    }
  }

  lemma WorkerKeepsHistory(s: State, step: Step)
    requires BackendHistory(s) && PointMatchesLifecycle(s) && Enabled(s, step) && IsWorkerStep(step)
    ensures BackendHistory(ApplyWorker(s, step))
  {
    var t := ApplyWorker(s, step);
    match step {
      case BackendReturns(outcome) =>
        assert t.finished[|s.finished|] == Returned(outcome);
      case BackendPanics => assert t.finished[|s.finished|] == Unwound;
      case _ =>
    }
  }

  lemma DropReceiverKeepsOrder(s: State, step: Step)
    requires BegunInOrder(s) && Enabled(s, step) && step.WorkerDropReceiver?
    ensures BegunInOrder(ApplyWorker(s, step))
  {
    SettledAppend(s.settlements, Disconnections(s.queue));
  }

  predicate IsSettlingStep(step: Step) {
    step.WorkerRefuse? || step.WorkerReply? || step.WorkerReplyPanic? || step.WorkerDrainOne?
  }

  lemma SettlingKeepsOrder(s: State, step: Step)
    requires BegunInOrder(s) && PointMatchesLifecycle(s) && Enabled(s, step) && IsSettlingStep(step)
    ensures BegunInOrder(ApplyWorker(s, step))
  {
    hide Disconnections, RequestShutdown, MarkStopped, BeginRequest, FinishRequest, TerminalError;
  }

  lemma OtherwiseKeepsOrder(s: State, step: Step)
    requires BegunInOrder(s) && PointMatchesLifecycle(s) && Enabled(s, step) && IsWorkerStep(step)
    requires !step.WorkerDropReceiver? && !IsSettlingStep(step)
    ensures BegunInOrder(ApplyWorker(s, step))
  {
    hide Disconnections, RequestShutdown, MarkStopped, TerminalError, ShutdownObserved, Settle;
  }

  lemma WorkerKeepsOrder(s: State, step: Step)
    requires BegunInOrder(s) && PointMatchesLifecycle(s) && Enabled(s, step) && IsWorkerStep(step)
    ensures BegunInOrder(ApplyWorker(s, step))
  {
    hide BegunInOrder, PointMatchesLifecycle, Enabled, ApplyWorker;
    if step.WorkerDropReceiver? {
      DropReceiverKeepsOrder(s, step);
    } else if IsSettlingStep(step) {
      SettlingKeepsOrder(s, step);
    } else {
      OtherwiseKeepsOrder(s, step);
    }
  }

  lemma WorkerKeepsContents(s: State, step: Step)
    requires SettlementContents(s) && BegunInOrder(s) && BackendHistory(s) && PointMatchesLifecycle(s)
    requires Enabled(s, step) && IsWorkerStep(step)
    ensures SettlementContents(ApplyWorker(s, step))
  {
    WorkerKeepsHistory(s, step);
  }

  lemma WorkerKeepsPoint(s: State, step: Step)
    requires PointMatchesLifecycle(s) && Enabled(s, step) && IsWorkerStep(step)
    ensures PointMatchesLifecycle(ApplyWorker(s, step))
  {}

  lemma WorkerLeavesCalls(s: State, step: Step)
    requires Enabled(s, step) && IsWorkerStep(step)
    ensures var t := ApplyWorker(s, step);
            && t.calls == s.calls && t.accepted == s.accepted && t.handle == s.handle && t.clients == s.clients
            && (ReceiverDropped(s.pc) ==> ReceiverDropped(t.pc) && t.finished == s.finished)
  {
    hide RequestShutdown, MarkStopped, BeginRequest, FinishRequest, TerminalError, ShutdownObserved, Disconnections;
  }

  lemma WorkerExtendsHistories(s: State, step: Step)
    requires Enabled(s, step) && IsWorkerStep(step)
    ensures var t := ApplyWorker(s, step);
            s.settlements <= t.settlements && s.begun <= t.begun && s.finished <= t.finished
  {
    hide RequestShutdown, MarkStopped, BeginRequest, FinishRequest, TerminalError, ShutdownObserved, Disconnections;
    if !IsSettlingStep(step) {
      hide Settle;
    }
  }

  lemma WorkerKeepsChannels(s: State, step: Step)
    requires CallersSeeOwnChannel(s) && Enabled(s, step) && IsWorkerStep(step)
    ensures CallersSeeOwnChannel(ApplyWorker(s, step))
  {
    WorkerLeavesCalls(s, step);
    WorkerExtendsHistories(s, step);
    hide ApplyWorker, Enabled, IsWorkerStep;
    var t := ApplyWorker(s, step);
    assert forall x :: x in s.settlements ==> x in t.settlements;
  }

  lemma WorkerKeepsCallers(s: State, step: Step)
    requires AcceptedBelongToCalls(s) && CallersSeeOwnChannel(s) && CallsKeepAClient(s)
    requires Enabled(s, step) && IsWorkerStep(step)
    ensures var t := ApplyWorker(s, step);
            AcceptedBelongToCalls(t) && CallersSeeOwnChannel(t) && CallsKeepAClient(t)
  {
    WorkerLeavesCalls(s, step);
    WorkerKeepsChannels(s, step);
    hide ApplyWorker, Enabled, IsWorkerStep, CallersSeeOwnChannel, CallerSees;
  }

  lemma WorkerKeepsHandle(s: State, step: Step)
    requires HandleHistory(s) && PointMatchesLifecycle(s) && Enabled(s, step) && IsWorkerStep(step)
    ensures HandleHistory(ApplyWorker(s, step))
  {
    hide Disconnections;
  }

  // Caller steps

  predicate IsCallStep(step: Step) {
    !IsWorkerStep(step) && !IsHandleStep(step)
  }

  lemma CallKeepsQueue(s: State, step: Step)
    requires Conservation(s) && |s.queue| <= s.capacity && Enabled(s, step) && IsCallStep(step)
    ensures Conservation(ApplyCall(s, step)) && |ApplyCall(s, step).queue| <= s.capacity
  {}

  lemma CallLeavesWorker(s: State, step: Step)
    requires Enabled(s, step) && IsCallStep(step)
    ensures var t := ApplyCall(s, step);
            t == s.(queue := t.queue, accepted := t.accepted, clients := t.clients, calls := t.calls)
    ensures s.clients == 0 ==> ApplyCall(s, step).clients == 0
  {}

  lemma CallKeepsWorker(s: State, step: Step)
    requires BackendHistory(s) && BegunInOrder(s) && SettlementContents(s) && HandleHistory(s) && PointMatchesLifecycle(s)
    requires Enabled(s, step) && IsCallStep(step)
    ensures var t := ApplyCall(s, step);
            BackendHistory(t) && BegunInOrder(t) && SettlementContents(t) && HandleHistory(t) && PointMatchesLifecycle(t)
  {
    CallLeavesWorker(s, step);
  }

  lemma SendKeepsAccepted(s: State, t: State, id: CallId)
    requires AcceptedBelongToCalls(s) && id in s.calls && !HasSent(s.calls[id].pc)
    requires t.calls == s.calls[id := s.calls[id].(pc := AwaitReply)]
    requires t.accepted == s.accepted + [Request(id, s.calls[id].addr)]
    ensures AcceptedBelongToCalls(t)
  {
    forall i | 0 <= i < |t.accepted|
      ensures t.accepted[i].id in t.calls
      ensures t.calls[t.accepted[i].id].addr == t.accepted[i].addr && HasSent(t.calls[t.accepted[i].id].pc)
      ensures i < |s.accepted| ==> t.accepted[i].id != id
    {
      if i < |s.accepted| {
        assert t.accepted[i] == s.accepted[i];
      }
    }
    forall other <- t.calls | HasSent(t.calls[other].pc) ensures Request(other, t.calls[other].addr) in t.accepted {
      if other == id {
        assert t.accepted[|s.accepted|] == Request(id, t.calls[id].addr);
      } else {
        assert Request(other, s.calls[other].addr) in s.accepted;
      }
    }
  }

  /** Any other caller step moves one call without changing whether it has sent. */
  lemma MoveKeepsAccepted(s: State, t: State, id: CallId)
    requires AcceptedBelongToCalls(s) && t.accepted == s.accepted
    requires id in t.calls && t.calls == s.calls[id := t.calls[id]]
    requires if id in s.calls then t.calls[id].addr == s.calls[id].addr && HasSent(t.calls[id].pc) == HasSent(s.calls[id].pc)
             else !HasSent(t.calls[id].pc)
    ensures AcceptedBelongToCalls(t)
  {}

  lemma CallKeepsAccepted(s: State, step: Step)
    requires AcceptedBelongToCalls(s) && Enabled(s, step) && IsCallStep(step)
    ensures AcceptedBelongToCalls(ApplyCall(s, step))
  {
    var t := ApplyCall(s, step);
    match step {
      case CallTrySend(id) =>
        if t.accepted == s.accepted {
          MoveKeepsAccepted(s, t, id);
        } else {
          SendKeepsAccepted(s, t, id);
        }
      case CallStart(id, addr) => MoveKeepsAccepted(s, t, id);
      case CallCheck(id) => MoveKeepsAccepted(s, t, id);
      case CallReceive(id, outcome) => MoveKeepsAccepted(s, t, id);
      case CallTimeout(id) => MoveKeepsAccepted(s, t, id);
      case CallSeesDisconnect(id) => MoveKeepsAccepted(s, t, id);
      case CallResolve(id) => MoveKeepsAccepted(s, t, id);
      case _ =>
    }
  }

  /** The call that a step is about. */
  function CallOf(step: Step): Option<CallId> {
    match step
    case CallStart(id, _) => Some(id)
    case CallCheck(id) => Some(id)
    case CallTrySend(id) => Some(id)
    case CallReceive(id, _) => Some(id)
    case CallTimeout(id) => Some(id)
    case CallSeesDisconnect(id) => Some(id)
    case CallResolve(id) => Some(id)
    case _ => None
  }

  lemma CallMovesOne(s: State, step: Step)
    requires Enabled(s, step) && IsCallStep(step)
    ensures var t := ApplyCall(s, step);
            match CallOf(step)
            case Some(id) => id in t.calls && t.calls == s.calls[id := t.calls[id]]
            case None => t.calls == s.calls
  {}

  lemma MovedCallerSees(s: State, step: Step)
    requires CallersSeeOwnChannel(s) && SettlementContents(s) && PointMatchesLifecycle(s) && BackendHistory(s)
    requires Enabled(s, step) && IsCallStep(step) && CallOf(step).Some?
    ensures var t := ApplyCall(s, step); var id := CallOf(step).value;
            id in t.calls && CallerSees(id, t.calls[id], s.settlements, ReceiverDropped(s.pc), WorkerPanicked(s))
  {
    hide RequestShutdown, MarkStopped, BeginRequest, FinishRequest, Disconnections, ShutdownObserved;
    match step {
      case CallSeesDisconnect(id) => DisconnectedMeansDropped(s, Request(id, s.calls[id].addr));
      case CallResolve(id) => assert ReceiverDropped(s.pc);
      case _ =>
    }
    hide SettlementContents;
  }

  lemma DisconnectedMeansDropped(s: State, request: Request)
    requires SettlementContents(s) && Disconnected(request) in s.settlements
    ensures ReceiverDropped(s.pc)
  {
    var i :| 0 <= i < |s.settlements| && s.settlements[i] == Disconnected(request);
  }

  lemma CallKeepsChannels(s: State, step: Step)
    requires CallersSeeOwnChannel(s) && SettlementContents(s)
    requires BackendHistory(s) && PointMatchesLifecycle(s) && Enabled(s, step) && IsCallStep(step)
    ensures CallersSeeOwnChannel(ApplyCall(s, step))
  {
    CallLeavesWorker(s, step);
    CallMovesOne(s, step);
    if CallOf(step).Some? {
      MovedCallerSees(s, step);
    }
    hide ApplyCall, Enabled, CallerSees, SettlementContents, BackendHistory, PointMatchesLifecycle, CallOf;
    var t := ApplyCall(s, step);
    forall id <- t.calls ensures CallerSees(id, t.calls[id], t.settlements, ReceiverDropped(t.pc), WorkerPanicked(t)) {
      if CallOf(step) != Some(id) {
        assert t.calls[id] == s.calls[id];
      }
    }
  }

  lemma CallKeepsClients(s: State, step: Step)
    requires CallsKeepAClient(s) && Enabled(s, step) && IsCallStep(step)
    ensures CallsKeepAClient(ApplyCall(s, step))
  {}

  lemma CallKeepsCallers(s: State, step: Step)
    requires CallersSeeOwnChannel(s) && CallsKeepAClient(s) && SettlementContents(s) && BegunInOrder(s)
    requires BackendHistory(s) && PointMatchesLifecycle(s) && Enabled(s, step) && IsCallStep(step)
    ensures CallersSeeOwnChannel(ApplyCall(s, step)) && CallsKeepAClient(ApplyCall(s, step))
  {
    hide *;
    CallKeepsChannels(s, step);
    CallKeepsClients(s, step);
  }

  // Handle steps

  lemma HandleKeepsHandle(s: State, step: Step)
    requires HandleHistory(s) && PointMatchesLifecycle(s) && Enabled(s, step) && IsHandleStep(step)
    ensures HandleHistory(ApplyHandle(s, step)) && PointMatchesLifecycle(ApplyHandle(s, step))
  {}

  lemma HandleLeavesRest(s: State, step: Step)
    requires Enabled(s, step) && IsHandleStep(step)
    ensures var t := ApplyHandle(s, step);
            t == s.(life := t.life, handle := t.handle, signals := t.signals, senderAlive := t.senderAlive)
  {}

  lemma HandleKeepsRest(s: State, step: Step)
    requires Inv(s) && Enabled(s, step) && IsHandleStep(step)
    ensures var t := ApplyHandle(s, step);
            && Conservation(t) && BackendHistory(t) && BegunInOrder(t) && SettlementContents(t)
            && AcceptedBelongToCalls(t) && CallersSeeOwnChannel(t) && CallsKeepAClient(t)
  {
    HandleLeavesRest(s, step);
    hide Enabled, ApplyHandle, PointMatchesLifecycle, HandleHistory;
  }

  lemma WorkerKeepsBound(s: State, step: Step)
    requires Enabled(s, step) && IsWorkerStep(step)
    ensures var t := ApplyWorker(s, step); t.capacity == s.capacity && |t.queue| <= |s.queue|
  {
    hide RequestShutdown, MarkStopped, BeginRequest, FinishRequest, TerminalError, ShutdownObserved, Disconnections;
  }

  lemma OthersKeepBound(s: State, step: Step)
    requires Enabled(s, step) && !IsWorkerStep(step)
    ensures Apply(s, step).capacity == s.capacity
    ensures IsHandleStep(step) ==> Apply(s, step).queue == s.queue
  {}

  lemma StepKeepsInv(s: State, step: Step)
    requires Inv(s) && Enabled(s, step)
    ensures Inv(Apply(s, step))
  {
    if !IsWorkerStep(step) {
      OthersKeepBound(s, step);
    }
    hide Enabled, ApplyWorker, ApplyCall, ApplyHandle, PointMatchesLifecycle, Conservation, BackendHistory, BegunInOrder;
    hide SettlementContents, AcceptedBelongToCalls, CallersSeeOwnChannel, CallsKeepAClient, HandleHistory;
    if IsWorkerStep(step) {
      WorkerKeepsBound(s, step);
      WorkerKeepsConservation(s, step);
      WorkerKeepsHistory(s, step);
      WorkerKeepsOrder(s, step);
      WorkerKeepsContents(s, step);
      WorkerKeepsPoint(s, step);
      WorkerKeepsCallers(s, step);
      WorkerKeepsHandle(s, step);
    } else if IsHandleStep(step) {
      HandleKeepsHandle(s, step);
      HandleKeepsRest(s, step);
    } else {
      CallKeepsQueue(s, step);
      CallKeepsWorker(s, step);
      CallKeepsAccepted(s, step);
      CallKeepsCallers(s, step);
    }
  }

  lemma {:induction false} RunKeepsInv(run: Run, i: nat)
    requires IsRun(run) && i < |run.states|
    ensures Inv(run.states[i])
  {
    if i == 0 {
      InitEstablishes(run.states[0]);
    } else {
      RunKeepsInv(run, i - 1);
      StepKeepsInv(run.states[i - 1], run.steps[i - 1]);
    }
  }
}
