/** What a call, a shutdown and a drop get from a worker that nobody disturbs. */
module SymbolizerService {
  import opened Common
  import opened SymbolizerLifecycle
  import opened SymbolizerWorker

  predicate CanTake(s: State, steps: seq<Step>)
    decreases |steps|
  {
    steps == [] || (Enabled(s, steps[0]) && CanTake(Apply(s, steps[0]), steps[1..]))
  }

  function After(s: State, steps: seq<Step>): State
    requires CanTake(s, steps)
    decreases |steps|
  {
    if steps == [] then s else After(Apply(s, steps[0]), steps[1..])
  }

  lemma Then(s: State, step: Step, rest: seq<Step>)
    requires Enabled(s, step) && CanTake(Apply(s, step), rest)
    ensures CanTake(s, [step] + rest) && After(s, [step] + rest) == After(Apply(s, step), rest)
  {
    assert ([step] + rest)[1..] == rest;
  }

  lemma {:induction false} InParts(s: State, first: seq<Step>, second: seq<Step>)
    requires CanTake(s, first) && CanTake(After(s, first), second)
    ensures CanTake(s, first + second) && After(s, first + second) == After(After(s, first), second)
    decreases |first|
  {
    hide Enabled, Apply;
    if first == [] {
      assert first + second == second;
    } else {
      InParts(Apply(s, first[0]), first[1..], second);
      assert (first + second)[1..] == first[1..] + second;
    }
  }

  /** An idle worker and a client. */
  predicate Idle(s: State) {
    && s.pc.PollShutdown? && s.life.Running? && s.queue == [] && s.capacity >= 1
    && s.signals == 0 && s.senderAlive && s.clients > 0
  }

  function Sends(id: CallId, addr: nat): seq<Step> {
    [CallStart(id, addr), CallCheck(id), CallTrySend(id)]
  }

  function TakesUp(): seq<Step> {
    [WorkerPoll, WorkerCheck, WorkerTake, WorkerBegin]
  }

  function Answers(id: CallId, outcome: Outcome): seq<Step> {
    [BackendReturns(outcome), WorkerReply, CallReceive(id, outcome), WorkerFinish]
  }

  function Sent(s: State, id: CallId, addr: nat): State {
    s.(calls := s.calls[id := Call(addr, AwaitReply)], queue := [Request(id, addr)],
       accepted := s.accepted + [Request(id, addr)])
  }

  function TakenUp(s: State, id: CallId, addr: nat): State {
    s.(calls := s.calls[id := Call(addr, AwaitReply)], accepted := s.accepted + [Request(id, addr)],
       pc := Execute(Request(id, addr)), life := Executing, begun := s.begun + [Request(id, addr)])
  }

  function Served(s: State, id: CallId, addr: nat, outcome: Outcome): State {
    s.(calls := s.calls[id := Call(addr, Done(Received, outcome))], accepted := s.accepted + [Request(id, addr)],
       begun := s.begun + [Request(id, addr)], finished := s.finished + [Returned(outcome)],
       settlements := s.settlements + [Replied(Request(id, addr), outcome)])
  }

  predicate Leads(s: State, step: Step, t: State) {
    Enabled(s, step) && Apply(s, step) == t
  }

  lemma Starts(s: State, id: CallId, addr: nat)
    requires s.clients > 0 && id !in s.calls
    ensures Leads(s, CallStart(id, addr), s.(calls := s.calls[id := Call(addr, CheckLifecycle)]))
  {
    hide ApplyWorker, ApplyHandle;
  }

  lemma Checks(s: State, id: CallId)
    requires s.life.Running? && CallAt(s, id, CheckLifecycle)
    ensures Leads(s, CallCheck(id), s.(calls := s.calls[id := Call(s.calls[id].addr, TrySend)]))
  {
    hide ApplyWorker, ApplyHandle;
  }

  lemma TriesSend(s: State, id: CallId)
    requires CallAt(s, id, TrySend) && s.pc.PollShutdown? && s.queue == [] && s.capacity >= 1
    ensures var request := Request(id, s.calls[id].addr);
            Leads(s, CallTrySend(id),
                  s.(calls := s.calls[id := Call(s.calls[id].addr, AwaitReply)], queue := [request],
                     accepted := s.accepted + [request]))
  {
    hide ApplyWorker, ApplyHandle;
  }

  lemma Receives(s: State, id: CallId, outcome: Outcome)
    requires CallAt(s, id, AwaitReply) && Replied(Request(id, s.calls[id].addr), outcome) in s.settlements
    ensures Leads(s, CallReceive(id, outcome), s.(calls := s.calls[id := Call(s.calls[id].addr, Done(Received, outcome))]))
  {
    hide ApplyWorker, ApplyHandle;
  }

  lemma LoneCallIsSent(s: State, id: CallId, addr: nat)
    requires Idle(s) && id !in s.calls
    ensures CanTake(s, Sends(id, addr)) && After(s, Sends(id, addr)) == Sent(s, id, addr)
  {
    var a := s.(calls := s.calls[id := Call(addr, CheckLifecycle)]);
    var b := s.(calls := s.calls[id := Call(addr, TrySend)]);
    assert a.calls[id := Call(addr, TrySend)] == b.calls;
    assert b.calls[id := Call(addr, AwaitReply)] == Sent(s, id, addr).calls;
    Starts(s, id, addr);
    Checks(a, id);
    TriesSend(b, id);
    hide Apply, Enabled;
    Then(b, CallTrySend(id), []);
    Then(a, CallCheck(id), [CallTrySend(id)]);
    Then(s, CallStart(id, addr), [CallCheck(id), CallTrySend(id)]);
  }

  lemma LoneCallIsTakenUp(s: State, id: CallId, addr: nat)
    requires Idle(s) && id !in s.calls
    ensures CanTake(Sent(s, id, addr), TakesUp()) && After(Sent(s, id, addr), TakesUp()) == TakenUp(s, id, addr)
  {
    hide ApplyCall, ApplyHandle;
    var a := Sent(s, id, addr);
    var b, c := a.(pc := CheckShutdown), a.(pc := Receive);
    var d := a.(queue := [], pc := Begin(Request(id, addr)));
    assert Leads(a, WorkerPoll, b);
    assert Leads(b, WorkerCheck, c);
    assert Leads(c, WorkerTake, d);
    assert Leads(d, WorkerBegin, TakenUp(s, id, addr));
    hide Apply, Enabled;
    Then(d, WorkerBegin, []);
    Then(c, WorkerTake, [WorkerBegin]);
    Then(b, WorkerCheck, [WorkerTake, WorkerBegin]);
    Then(a, WorkerPoll, [WorkerCheck, WorkerTake, WorkerBegin]);
  }

  lemma LoneCallIsAnswered(s: State, id: CallId, addr: nat, outcome: Outcome)
    requires Idle(s) && id !in s.calls
    ensures CanTake(TakenUp(s, id, addr), Answers(id, outcome))
    ensures After(TakenUp(s, id, addr), Answers(id, outcome)) == Served(s, id, addr, outcome)
  {
    hide ApplyCall, ApplyHandle;
    var request := Request(id, addr);
    var a := TakenUp(s, id, addr);
    var b := a.(pc := Reply(request, outcome), finished := a.finished + [Returned(outcome)]);
    var c := b.(pc := Finish, settlements := b.settlements + [Replied(request, outcome)]);
    var d := c.(calls := s.calls[id := Call(addr, Done(Received, outcome))]);
    assert c.calls[id := Call(addr, Done(Received, outcome))] == d.calls;
    assert c.settlements[|s.settlements|] == Replied(request, outcome);
    assert Leads(a, BackendReturns(outcome), b);
    assert Leads(b, WorkerReply, c);
    Receives(c, id, outcome);
    assert Leads(d, WorkerFinish, Served(s, id, addr, outcome));
    hide Apply, Enabled;
    Then(d, WorkerFinish, []);
    Then(c, CallReceive(id, outcome), [WorkerFinish]);
    Then(b, WorkerReply, [CallReceive(id, outcome), WorkerFinish]);
    Then(a, BackendReturns(outcome), [WorkerReply, CallReceive(id, outcome), WorkerFinish]);
  }

  /** A new call to an idle worker can get whatever the backend returns for its address, and then the worker is idle
      again and nothing else has changed. */
  lemma LoneCallIsServed(s: State, id: CallId, addr: nat, outcome: Outcome)
    requires Idle(s) && id !in s.calls
    ensures var steps := Sends(id, addr) + (TakesUp() + Answers(id, outcome));
            CanTake(s, steps) && After(s, steps) == Served(s, id, addr, outcome)
    ensures Idle(Served(s, id, addr, outcome))
  {
    LoneCallIsSent(s, id, addr);
    LoneCallIsTakenUp(s, id, addr);
    LoneCallIsAnswered(s, id, addr, outcome);
    hide CanTake, After, Sends, TakesUp, Answers;
    InParts(Sent(s, id, addr), TakesUp(), Answers(id, outcome));
    InParts(s, Sends(id, addr), TakesUp() + Answers(id, outcome));
  }

  /** How the worker ends once it has been asked to, with nothing queued. */
  function Ends(): seq<Step> {
    [WorkerPoll, WorkerCheck, WorkerDrainEmpty, WorkerRecordStop, WorkerDropReceiver, WorkerEnd]
  }

  function Closed(s: State): State {
    s.(life := Stopped, pc := Exited(false), signals := 0)
  }

  lemma StopIsRecorded(s: State)
    requires s.pc.RecordStop? && !s.life.Panicked? && s.queue == []
    ensures var steps := [WorkerRecordStop, WorkerDropReceiver, WorkerEnd];
            CanTake(s, steps) && After(s, steps) == s.(life := Stopped, pc := Exited(false))
  {
    hide ApplyCall, ApplyHandle;
    var a, b := s.(life := Stopped, pc := DropReceiver(false)), s.(life := Stopped, pc := Ending(false));
    assert Leads(s, WorkerRecordStop, a);
    assert Leads(a, WorkerDropReceiver, b);
    assert Leads(b, WorkerEnd, s.(life := Stopped, pc := Exited(false)));
    hide Apply, Enabled;
    Then(b, WorkerEnd, []);
    Then(a, WorkerDropReceiver, [WorkerEnd]);
    Then(s, WorkerRecordStop, [WorkerDropReceiver, WorkerEnd]);
  }

  lemma AskedWorkerDrains(s: State)
    requires s.pc.PollShutdown? && s.life.ShutdownRequested? && s.queue == [] && s.signals <= 1
    ensures var steps := [WorkerPoll, WorkerCheck, WorkerDrainEmpty];
            CanTake(s, steps) && After(s, steps) == s.(signals := 0, pc := RecordStop)
  {
    hide ApplyCall, ApplyHandle;
    var a, b := s.(signals := 0, pc := CheckShutdown), s.(signals := 0, pc := Drain(WorkerStopped, false));
    assert Leads(s, WorkerPoll, a);
    assert Leads(a, WorkerCheck, b);
    assert Leads(b, WorkerDrainEmpty, s.(signals := 0, pc := RecordStop));
    hide Apply, Enabled;
    Then(b, WorkerDrainEmpty, []);
    Then(a, WorkerCheck, [WorkerDrainEmpty]);
    Then(s, WorkerPoll, [WorkerCheck, WorkerDrainEmpty]);
  }

  lemma AskedWorkerEnds(s: State)
    requires s.pc.PollShutdown? && s.life.ShutdownRequested? && s.queue == [] && s.signals <= 1
    ensures CanTake(s, Ends()) && After(s, Ends()) == Closed(s)
  {
    hide Apply, Enabled;
    var a := s.(signals := 0, pc := RecordStop);
    AskedWorkerDrains(s);
    StopIsRecorded(a);
    InParts(s, [WorkerPoll, WorkerCheck, WorkerDrainEmpty], [WorkerRecordStop, WorkerDropReceiver, WorkerEnd]);
    assert Ends() == [WorkerPoll, WorkerCheck, WorkerDrainEmpty] + [WorkerRecordStop, WorkerDropReceiver, WorkerEnd];
  }

  function Asked(s: State): State {
    s.(life := ShutdownRequested, signals := 1, handle := Polling(Running, s.clients))
  }

  lemma HandleAsks(s: State)
    requires s.life.Running? && s.signals == 0 && s.handle.Held?
    ensures Leads(s, HandleRequest, s.(life := ShutdownRequested, handle := Requested(Running, s.clients)))
    ensures Leads(s.(life := ShutdownRequested, handle := Requested(Running, s.clients)), HandleSignal, Asked(s))
  {
    hide ApplyCall, ApplyWorker;
  }

  lemma HandleJoins(s: State)
    requires s.pc == Exited(false) && s.handle == Polling(Running, s.clients) && s.senderAlive
    ensures var t := s.(handle := Joined(Running, s.clients, false, ShutdownOk));
            Leads(s, HandleJoin, t) && Leads(t, HandleDropSender, t.(senderAlive := false))
  {
    hide ApplyCall, ApplyWorker;
  }

  lemma HandleDrops(s: State)
    requires s.life.Running? && s.signals == 0 && s.handle.Held? && s.senderAlive
    ensures var a := s.(life := ShutdownRequested, handle := DropRequested);
            var b := s.(life := ShutdownRequested, signals := 1, handle := DropSignalled);
            && Leads(s, HandleDropRequest, a) && Leads(a, HandleDropSignal, b)
            && Leads(b, HandleDropSender, b.(senderAlive := false))
  {
    hide ApplyCall, ApplyWorker;
  }

  /** Shutting down an idle worker succeeds: it stops and the join tells so. */
  lemma LoneShutdownSucceeds(s: State)
    requires Idle(s) && s.handle.Held?
    ensures var steps := [HandleRequest, HandleSignal] + (Ends() + [HandleJoin, HandleDropSender]);
            CanTake(s, steps)
            && After(s, steps) == Closed(s).(senderAlive := false, handle := Joined(Running, s.clients, false, ShutdownOk))
  {
    hide Apply, Enabled, Ends;
    var a := s.(life := ShutdownRequested, handle := Requested(Running, s.clients));
    var b, c := Asked(s), Closed(Asked(s));
    var d := c.(handle := Joined(Running, s.clients, false, ShutdownOk));
    HandleAsks(s);
    AskedWorkerEnds(b);
    HandleJoins(c);
    Then(a, HandleSignal, []);
    Then(s, HandleRequest, [HandleSignal]);
    Then(d, HandleDropSender, []);
    Then(c, HandleJoin, [HandleDropSender]);
    InParts(b, Ends(), [HandleJoin, HandleDropSender]);
    InParts(s, [HandleRequest, HandleSignal], Ends() + [HandleJoin, HandleDropSender]);
  }

  /** Dropping the handle unused ends an idle worker just as well. */
  lemma LoneDropEndsTheWorker(s: State)
    requires Idle(s) && s.handle.Held?
    ensures var steps := [HandleDropRequest, HandleDropSignal, HandleDropSender] + Ends();
            CanTake(s, steps) && After(s, steps) == Closed(s).(senderAlive := false, handle := DropSignalled)
  {
    hide Apply, Enabled, Ends;
    var a := s.(life := ShutdownRequested, handle := DropRequested);
    var b := a.(signals := 1, handle := DropSignalled);
    var c := b.(senderAlive := false);
    HandleDrops(s);
    AskedWorkerEnds(c);
    Then(b, HandleDropSender, []);
    Then(a, HandleDropSignal, [HandleDropSender]);
    Then(s, HandleDropRequest, [HandleDropSignal, HandleDropSender]);
    InParts(s, [HandleDropRequest, HandleDropSignal, HandleDropSender], Ends());
  }

  lemma Clones(s: State)
    requires s.clients > 0
    ensures Leads(s, ClientClone, s.(clients := s.clients + 1))
    ensures Leads(s.(clients := s.clients + 1), ClientDrop, s)
  {
    hide ApplyWorker, ApplyHandle;
  }

  /** A client may be cloned whenever there is one, whatever calls are in progress, and either of the two dropped then. */
  lemma CloneThenDrop(s: State)
    requires s.clients > 0
    ensures CanTake(s, [ClientClone, ClientDrop]) && After(s, [ClientClone, ClientDrop]) == s
  {
    hide Apply, Enabled;
    var a := s.(clients := s.clients + 1);
    Clones(s);
    Then(a, ClientDrop, []);
    Then(s, ClientClone, [ClientDrop]);
  }

  lemma LosesClients(s: State)
    requires Idle(s) && s.clients == 1 && AllCallsDone(s)
    ensures var steps := [ClientDrop, WorkerPoll, WorkerCheck, WorkerReceiveDisconnected];
            CanTake(s, steps) && After(s, steps) == s.(clients := 0, pc := RecordStop)
  {
    hide ApplyHandle;
    var a := s.(clients := 0);
    var b, c := a.(pc := CheckShutdown), a.(pc := Receive);
    assert Leads(s, ClientDrop, a);
    assert Leads(a, WorkerPoll, b);
    assert Leads(b, WorkerCheck, c);
    assert Leads(c, WorkerReceiveDisconnected, a.(pc := RecordStop));
    hide Apply, Enabled;
    Then(c, WorkerReceiveDisconnected, []);
    Then(b, WorkerCheck, [WorkerReceiveDisconnected]);
    Then(a, WorkerPoll, [WorkerCheck, WorkerReceiveDisconnected]);
    Then(s, ClientDrop, [WorkerPoll, WorkerCheck, WorkerReceiveDisconnected]);
  }

  /** When the last client of an idle worker is dropped, the worker stops by itself. */
  lemma LastClientEndsTheWorker(s: State)
    requires Idle(s) && s.clients == 1 && AllCallsDone(s)
    ensures var steps := [ClientDrop, WorkerPoll, WorkerCheck, WorkerReceiveDisconnected] +
                         [WorkerRecordStop, WorkerDropReceiver, WorkerEnd];
            CanTake(s, steps) && After(s, steps) == Closed(s).(clients := 0)
  {
    hide Apply, Enabled;
    LosesClients(s);
    StopIsRecorded(s.(clients := 0, pc := RecordStop));
    InParts(s, [ClientDrop, WorkerPoll, WorkerCheck, WorkerReceiveDisconnected],
            [WorkerRecordStop, WorkerDropReceiver, WorkerEnd]);
  }

  function Told(s: State, id: CallId, cause: Cause): State
    requires id in s.calls && TerminalError(s.life).Some?
  {
    s.(calls := s.calls[id := Call(s.calls[id].addr, Done(cause, Failed(TerminalError(s.life).value)))])
  }

  lemma SendsToNobody(s: State, id: CallId)
    requires s.pc.Exited? && CallAt(s, id, TrySend)
    ensures Leads(s, CallTrySend(id), s.(calls := s.calls[id := Call(s.calls[id].addr, AfterSendLost)]))
  {
    hide ApplyWorker, ApplyHandle;
  }

  lemma LosesReply(s: State, id: CallId)
    requires CallAt(s, id, AwaitReply) && Disconnected(Request(id, s.calls[id].addr)) in s.settlements
    ensures Leads(s, CallSeesDisconnect(id), s.(calls := s.calls[id := Call(s.calls[id].addr, AfterReplyLost)]))
  {
    hide ApplyWorker, ApplyHandle;
  }

  lemma Resolves(s: State, id: CallId, cause: Cause)
    requires TerminalError(s.life).Some? && id in s.calls
    requires s.calls[id].pc == (if cause.SendLost? then AfterSendLost else AfterReplyLost)
    requires cause.SendLost? || cause.ReplyLost?
    ensures Leads(s, CallResolve(id), Told(s, id, cause))
  {
    hide ApplyWorker, ApplyHandle;
  }

  /** A call that was let in before the worker ended and sends after it is told how the worker ended. */
  lemma LateCallIsTold(s: State, id: CallId)
    requires s.pc.Exited? && TerminalError(s.life).Some? && CallAt(s, id, TrySend)
    ensures var steps := [CallTrySend(id), CallResolve(id)];
            CanTake(s, steps) && After(s, steps) == Told(s, id, SendLost)
  {
    hide Apply, Enabled;
    var a := s.(calls := s.calls[id := Call(s.calls[id].addr, AfterSendLost)]);
    assert Told(a, id, SendLost).calls == Told(s, id, SendLost).calls;
    SendsToNobody(s, id);
    Resolves(a, id, SendLost);
    Then(a, CallResolve(id), []);
    Then(s, CallTrySend(id), [CallResolve(id)]);
  }

  /** A call whose request the worker dropped is told how the worker ended. */
  lemma DroppedCallIsTold(s: State, id: CallId)
    requires TerminalError(s.life).Some? && CallAt(s, id, AwaitReply)
    requires Disconnected(Request(id, s.calls[id].addr)) in s.settlements
    ensures var steps := [CallSeesDisconnect(id), CallResolve(id)];
            CanTake(s, steps) && After(s, steps) == Told(s, id, ReplyLost)
  {
    hide Apply, Enabled;
    var a := s.(calls := s.calls[id := Call(s.calls[id].addr, AfterReplyLost)]);
    assert Told(a, id, ReplyLost).calls == Told(s, id, ReplyLost).calls;
    LosesReply(s, id);
    Resolves(a, id, ReplyLost);
    Then(a, CallResolve(id), []);
    Then(s, CallSeesDisconnect(id), [CallResolve(id)]);
  }
}
