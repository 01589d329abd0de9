/** The symbolizer worker, its callers and its handle as one interleaved step relation.

  Every label of `Step` is one atomic action of the program: a critical section of the
  lifecycle mutex, one channel operation, one liveness change. Between two of them any
  other thread may act, so a run of the program is any sequence of enabled steps.

  One `symbolize` call makes exactly one one-shot reply channel, so the call's identifier
  names the channel too. The histories (`accepted`, `begun`, `finished`, `settlements`)
  record what happened and steer nothing.
*/
module SymbolizerWorker {
  import opened Common
  import opened SymbolizerLifecycle

  type CallId = nat

  /** Result<Symbolized, SymbolizeError> */
  datatype Outcome = Resolved(symbol: string) | Failed(error: SymbolizeError)

  datatype Request = Request(id: CallId, addr: nat)

  /** How one backend call ended. */
  datatype Completion = Returned(outcome: Outcome) | Unwound

  /** The end of one reply channel: a value was put into it, or its sender was dropped. */
  datatype Settlement = Replied(request: Request, outcome: Outcome) | Disconnected(request: Request)

  datatype WorkerPc =
    | PollShutdown
    | CheckShutdown
    | Receive
    | Begin(request: Request)
    | Refuse(request: Request, error: SymbolizeError)
    | Execute(request: Request)
    | Reply(request: Request, outcome: Outcome)
    | Finish
    | RecordPanic(request: Request)
    | ReplyPanic(request: Request)
    | Drain(error: SymbolizeError, panicking: bool)
    | RecordStop
    | DropReceiver(panicking: bool)
    | Ending(panicking: bool)
    | Exited(panicking: bool)
    | Aborted

  datatype Cause = Turned | Full | SendLost | Received | TimedOut | ReplyLost

  datatype CallPc =
    | CheckLifecycle
    | TrySend
    | AfterSendLost
    | AwaitReply
    | AfterReplyLost
    | Done(cause: Cause, outcome: Outcome)

  datatype Call = Call(addr: nat, pc: CallPc)

  datatype ShutdownResult = ShutdownOk | ShutdownErr(error: SymbolizeError)

  /** `seen` is the lifecycle `request_shutdown` found, `clientsThen` the live clients at that moment. */
  datatype HandlePc =
    | Held
    | Requested(seen: WorkerState, clientsThen: nat)
    | Polling(seen: WorkerState, clientsThen: nat)
    | Joined(seen: WorkerState, clientsThen: nat, workerPanicked: bool, result: ShutdownResult)
    | GaveUp(seen: WorkerState, clientsThen: nat, result: ShutdownResult)
    | DropRequested
    | DropSignalled

  datatype State = State(
    capacity: nat,
    life: WorkerState,
    pc: WorkerPc,
    queue: seq<Request>,
    signals: nat,
    senderAlive: bool,
    clients: nat,
    calls: map<CallId, Call>,
    handle: HandlePc,
    accepted: seq<Request>,
    begun: seq<Request>,
    finished: seq<Completion>,
    settlements: seq<Settlement>
  )

  ghost predicate Init(s: State) {
    && 1 <= s.capacity
    && s.life == Running
    && s.pc == PollShutdown
    && s.queue == []
    && s.signals == 0
    && s.senderAlive
    && s.clients == 1
    && s.calls == map[]
    && s.handle == Held
    && s.accepted == [] && s.begun == [] && s.finished == [] && s.settlements == []
  }

  datatype Step =
    // worker_loop
    | WorkerPoll
    | WorkerCheck
    | WorkerTake
    | WorkerReceiveTimeout
    | WorkerReceiveDisconnected
    | WorkerBegin
    | WorkerRefuse
    | BackendReturns(outcome: Outcome)
    | BackendPanics
    | WorkerReply
    | WorkerFinish
    | WorkerRecordPanic
    | WorkerReplyPanic
    | WorkerDrainOne
    | WorkerDrainEmpty
    | WorkerRecordStop
    | WorkerDropReceiver
    | WorkerEnd
    // symbolize_inner and the client handles
    | CallStart(id: CallId, addr: nat)
    | CallCheck(id: CallId)
    | CallTrySend(id: CallId)
    | CallReceive(id: CallId, outcome: Outcome)
    | CallTimeout(id: CallId)
    | CallSeesDisconnect(id: CallId)
    | CallResolve(id: CallId)
    | ClientClone
    | ClientDrop
    // SymbolizerWorkerHandle
    | HandleRequest
    | HandleSignal
    | HandleJoin
    | HandleTimeout
    | HandleDropRequest
    | HandleDropSignal
    | HandleDropSender

  predicate ReceiverDropped(pc: WorkerPc) {
    pc.Ending? || pc.Exited?
  }

  predicate AllCallsDone(s: State) {
    forall id <- s.calls :: s.calls[id].pc.Done?
  }

  predicate CallAt(s: State, id: CallId, pc: CallPc) {
    id in s.calls && s.calls[id].pc == pc
  }

  predicate Enabled(s: State, step: Step) {
    match step
    case WorkerPoll => s.pc.PollShutdown?
    case WorkerCheck => s.pc.CheckShutdown?
    case WorkerTake => s.pc.Receive? && s.queue != []
    case WorkerReceiveTimeout => s.pc.Receive? && s.queue == []
    // a receive reports disconnection only once the queue is empty and every sender is gone
    case WorkerReceiveDisconnected => s.pc.Receive? && s.queue == [] && s.clients == 0
    case WorkerBegin => s.pc.Begin?
    case WorkerRefuse => s.pc.Refuse?
    case BackendReturns(_) => s.pc.Execute?
    case BackendPanics => s.pc.Execute?
    case WorkerReply => s.pc.Reply?
    case WorkerFinish => s.pc.Finish?
    case WorkerRecordPanic => s.pc.RecordPanic?
    case WorkerReplyPanic => s.pc.ReplyPanic?
    case WorkerDrainOne => s.pc.Drain? && s.queue != []
    case WorkerDrainEmpty => s.pc.Drain? && s.queue == []
    case WorkerRecordStop => s.pc.RecordStop?
    case WorkerDropReceiver => s.pc.DropReceiver?
    case WorkerEnd => s.pc.Ending?
    case CallStart(id, _) => id !in s.calls && 0 < s.clients
    case CallCheck(id) => CallAt(s, id, CheckLifecycle)
    case CallTrySend(id) => CallAt(s, id, TrySend)
    case CallReceive(id, outcome) =>
      CallAt(s, id, AwaitReply) && Replied(Request(id, s.calls[id].addr), outcome) in s.settlements
    // recv_timeout may give up whether or not a late reply is on its way
    case CallTimeout(id) => CallAt(s, id, AwaitReply)
    case CallSeesDisconnect(id) =>
      CallAt(s, id, AwaitReply) && Disconnected(Request(id, s.calls[id].addr)) in s.settlements
    case CallResolve(id) => CallAt(s, id, AfterSendLost) || CallAt(s, id, AfterReplyLost)
    case ClientClone => 0 < s.clients
    // a call borrows its client, so the last client outlives every call in progress
    case ClientDrop => 0 < s.clients && (s.clients == 1 ==> AllCallsDone(s))
    case HandleRequest => s.handle.Held?
    case HandleSignal => s.handle.Requested?
    case HandleJoin => s.handle.Polling? && s.pc.Exited?
    case HandleTimeout => s.handle.Polling?
    case HandleDropRequest => s.handle.Held?
    case HandleDropSignal => s.handle.DropRequested?
    case HandleDropSender => s.senderAlive && (s.handle.Joined? || s.handle.GaveUp? || s.handle.DropSignalled?)
  }

  function Settle(s: State, settlement: Settlement): State {
    s.(settlements := s.settlements + [settlement])
  }

  function Disconnections(queue: seq<Request>): (settled: seq<Settlement>)
    ensures |settled| == |queue|
    ensures forall i | 0 <= i < |queue| :: settled[i] == Disconnected(queue[i])
  {
    if queue == [] then [] else [Disconnected(queue[0])] + Disconnections(queue[1..])
  }

  function MoveCall(s: State, id: CallId, pc: CallPc): State
    requires id in s.calls
  {
    s.(calls := s.calls[id := s.calls[id].(pc := pc)])
  }

  /** terminal_error().unwrap_or(WorkerStopped) */
  function ErrorAfterDisconnect(life: WorkerState): SymbolizeError {
    match TerminalError(life)
    case Some(error) => error
    case None => WorkerStopped
  }

  function ApplyWorker(s: State, step: Step): State
    requires Enabled(s, step)
  {
    match step
    case WorkerPoll =>
      if 0 < s.signals then
        s.(signals := s.signals - 1, life := RequestShutdown(s.life), pc := CheckShutdown)
      else if !s.senderAlive then
        s.(life := RequestShutdown(s.life), pc := CheckShutdown)
      else
        s.(pc := CheckShutdown)
    case WorkerCheck =>
      if ShutdownObserved(s.life) then s.(pc := Drain(WorkerStopped, false)) else s.(pc := Receive)
    case WorkerTake => s.(queue := s.queue[1..], pc := Begin(s.queue[0]))
    case WorkerReceiveTimeout => s.(pc := PollShutdown)
    case WorkerReceiveDisconnected => s.(pc := RecordStop)
    case WorkerBegin =>
      (match BeginRequest(s.life)
       case Begun => s.(life := Executing, pc := Execute(s.pc.request), begun := s.begun + [s.pc.request])
       case Refused(error) => s.(pc := Refuse(s.pc.request, error))
       case BeginImpossible => s.(pc := Aborted))
    case WorkerRefuse =>
      Settle(s, Replied(s.pc.request, Failed(s.pc.error))).(pc := Drain(s.pc.error, false))
    case BackendReturns(outcome) =>
      s.(pc := Reply(s.pc.request, outcome), finished := s.finished + [Returned(outcome)])
    case BackendPanics =>
      s.(pc := RecordPanic(s.pc.request), finished := s.finished + [Unwound])
    case WorkerReply =>
      Settle(s, Replied(s.pc.request, s.pc.outcome)).(pc := Finish)
    case WorkerFinish =>
      (match FinishRequest(s.life)
       case KeepServing => s.(life := Running, pc := PollShutdown)
       case StopServing => s.(pc := Drain(WorkerStopped, false))
       case FinishImpossible => s.(pc := Aborted))
    case WorkerRecordPanic => s.(life := Panicked, pc := ReplyPanic(s.pc.request))
    case WorkerReplyPanic =>
      Settle(s, Replied(s.pc.request, Failed(WorkerPanic))).(pc := Drain(WorkerPanic, true))
    case WorkerDrainOne =>
      Settle(s, Replied(s.queue[0], Failed(s.pc.error))).(queue := s.queue[1..])
    case WorkerDrainEmpty =>
      s.(pc := if s.pc.panicking then DropReceiver(true) else RecordStop)
    case WorkerRecordStop => s.(life := MarkStopped(s.life), pc := DropReceiver(false))
    case WorkerDropReceiver =>
      s.(queue := [], settlements := s.settlements + Disconnections(s.queue), pc := Ending(s.pc.panicking))
    case WorkerEnd => s.(pc := Exited(s.pc.panicking))
    case _ => s
  }

  function ApplyCall(s: State, step: Step): State
    requires Enabled(s, step)
  {
    match step
    case CallStart(id, addr) => s.(calls := s.calls[id := Call(addr, CheckLifecycle)])
    case CallCheck(id) =>
      (match TerminalError(s.life)
       case Some(error) => MoveCall(s, id, Done(Turned, Failed(error)))
       case None => MoveCall(s, id, TrySend))
    case CallTrySend(id) =>
      if ReceiverDropped(s.pc) then
        MoveCall(s, id, AfterSendLost)
      else if |s.queue| >= s.capacity then
        MoveCall(s, id, Done(Full, Failed(QueueFull)))
      else
        var request := Request(id, s.calls[id].addr);
        MoveCall(s, id, AwaitReply).(queue := s.queue + [request], accepted := s.accepted + [request])
    case CallReceive(id, outcome) => MoveCall(s, id, Done(Received, outcome))
    case CallTimeout(id) => MoveCall(s, id, Done(TimedOut, Failed(Timeout)))
    case CallSeesDisconnect(id) => MoveCall(s, id, AfterReplyLost)
    case CallResolve(id) =>
      var cause := if s.calls[id].pc.AfterSendLost? then SendLost else ReplyLost;
      MoveCall(s, id, Done(cause, Failed(ErrorAfterDisconnect(s.life))))
    case ClientClone => s.(clients := s.clients + 1)
    case ClientDrop => s.(clients := s.clients - 1)
    case _ => s
  }

  function JoinResult(seen: WorkerState, workerPanicked: bool): ShutdownResult {
    if workerPanicked then ShutdownErr(WorkerPanic)
    else if AcceptsShutdown(seen) then ShutdownOk
    else ShutdownErr(WorkerStopped)
  }

  function ApplyHandle(s: State, step: Step): State
    requires Enabled(s, step)
  {
    match step
    case HandleRequest => s.(life := RequestShutdown(s.life), handle := Requested(s.life, s.clients))
    case HandleSignal =>
      s.(signals := s.signals + 1, handle := Polling(s.handle.seen, s.handle.clientsThen))
    case HandleJoin =>
      s.(handle := Joined(s.handle.seen, s.handle.clientsThen, s.pc.panicking, JoinResult(s.handle.seen, s.pc.panicking)))
    case HandleTimeout =>
      s.(handle := GaveUp(s.handle.seen, s.handle.clientsThen, ShutdownErr(ShutdownTimeout)))
    case HandleDropRequest => s.(life := RequestShutdown(s.life), handle := DropRequested)
    case HandleDropSignal => s.(signals := s.signals + 1, handle := DropSignalled)
    case HandleDropSender => s.(senderAlive := false)
    case _ => s
  }

  predicate IsWorkerStep(step: Step) {
    step.WorkerPoll? || step.WorkerCheck? || step.WorkerTake? || step.WorkerReceiveTimeout?
    || step.WorkerReceiveDisconnected? || step.WorkerBegin? || step.WorkerRefuse? || step.BackendReturns?
    || step.BackendPanics? || step.WorkerReply? || step.WorkerFinish? || step.WorkerRecordPanic?
    || step.WorkerReplyPanic? || step.WorkerDrainOne? || step.WorkerDrainEmpty? || step.WorkerRecordStop?
    || step.WorkerDropReceiver? || step.WorkerEnd?
  }

  predicate IsHandleStep(step: Step) {
    step.HandleRequest? || step.HandleSignal? || step.HandleJoin? || step.HandleTimeout?
    || step.HandleDropRequest? || step.HandleDropSignal? || step.HandleDropSender?
  }

  function Apply(s: State, step: Step): State
    requires Enabled(s, step)
  {
    if IsWorkerStep(step) then ApplyWorker(s, step)
    else if IsHandleStep(step) then ApplyHandle(s, step)
    else ApplyCall(s, step)
  }

  /** A run: its states, and the step taken between each two of them. */
  datatype Run = Run(states: seq<State>, steps: seq<Step>)

  ghost predicate IsRun(run: Run) {
    && |run.states| == |run.steps| + 1
    && Init(run.states[0])
    && forall i | 0 <= i < |run.steps| ::
         Enabled(run.states[i], run.steps[i]) && run.states[i + 1] == Apply(run.states[i], run.steps[i])
  }
}
