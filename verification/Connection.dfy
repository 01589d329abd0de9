/** Any number of concurrent operations on one vsock endpoint.

  Each label of `Step` is one atomic action: a look at the close flag, a lock, one codec
  operation on the locked reader, one partial write, the compare-exchange of `finish`.
  Operations run to completion; their steps interleave freely.
*/
module Connection {
  import opened Common
  import opened Codec

  type OpId = nat

  datatype OpKind = Recv | Send(payload: Bytes)

  datatype OpValue = Frame(bytes: Bytes) | Sent

  /** How an operation ended: with its value, with its own error, with PeerClosed because the connection was closed, or
      unwinding from the panic of a buffer that cannot be allocated. */
  datatype Outcome = Succeeded(value: OpValue) | FailedWith(error: TransportError) | Closed | Unwound

  datatype OpPc =
    | FirstCheck
    | AwaitLock
    | SecondCheck
    | ReadFrame
    | EncodeFrame
    | Write(rest: Bytes)
    | Finish(result: Result<OpValue, TransportError>)
    | ShutdownBoth(error: TransportError)
    | Unlock(outcome: Outcome)
    | Done(outcome: Outcome)

  datatype Op = Op(kind: OpKind, pc: OpPc)

  /** `peer` is everything the peer ever sends, `input` the part the codec has not consumed; `delivered`, `started`
      and `sendFailed` are history. */
  datatype State = State(
    max: usize,
    closed: bool,
    shutdowns: nat,
    winner: Option<OpId>,
    readLock: Option<OpId>,
    writeLock: Option<OpId>,
    ops: map<OpId, Op>,
    peer: Bytes,
    input: Bytes,
    output: Bytes,
    delivered: seq<Bytes>,
    started: seq<Bytes>,
    sendFailed: bool
  )

  ghost predicate Init(s: State) {
    && !s.closed && s.shutdowns == 0 && s.winner == None
    && s.readLock == None && s.writeLock == None && s.ops == map[]
    && s.input == s.peer && s.output == [] && s.delivered == [] && s.started == [] && !s.sendFailed
  }

  datatype Step =
    | Start(id: OpId, kind: OpKind)
    | CheckFirst(id: OpId)
    | TakeLock(id: OpId)
    | CheckSecond(id: OpId)
    /** the transport brings `chunks` and then possibly `end`; the JSON layer accepts the frame or names an error */
    | DoRead(id: OpId, chunks: seq<Bytes>, end: StreamEnd, verdict: Option<TransportError>)
    | DoEncode(id: OpId)
    | Emit(id: OpId, count: nat)
    | WriteFails(id: OpId)
    | Flushed(id: OpId)
    | DoFinish(id: OpId)
    | DoShutdown(id: OpId)
    | ReleaseLock(id: OpId)

  function LockOf(s: State, kind: OpKind): Option<OpId> {
    if kind.Recv? then s.readLock else s.writeLock
  }

  ghost predicate Enabled(s: State, step: Step) {
    if step.Start? then step.id !in s.ops
    else
      && step.id in s.ops
      && var op := s.ops[step.id];
         match step
         case Start(_, _) => false
         case CheckFirst(_) => op.pc.FirstCheck?
         case TakeLock(_) => op.pc.AwaitLock? && LockOf(s, op.kind).None?
         case CheckSecond(_) => op.pc.SecondCheck?
         case DoRead(_, chunks, _, _) => op.pc.ReadFrame? && NonEmpty(chunks) && Concat(chunks) <= s.input
         case DoEncode(_) => op.pc.EncodeFrame? && op.kind.Send?
         case Emit(_, count) => op.pc.Write? && 1 <= count <= |op.pc.rest|
         case WriteFails(_) => op.pc.Write?
         case Flushed(_) => op.pc.Write? && op.pc.rest == []
         case DoFinish(_) => op.pc.Finish?
         case DoShutdown(_) => op.pc.ShutdownBoth?
         case ReleaseLock(_) => op.pc.Unlock?
  }

  function Move(s: State, id: OpId, pc: OpPc): State
    requires id in s.ops
  {
    s.(ops := s.ops[id := s.ops[id].(pc := pc)])
  }

  function SetLock(s: State, kind: OpKind, holder: Option<OpId>): State {
    if kind.Recv? then s.(readLock := holder) else s.(writeLock := holder)
  }

  /** The bytes a read consumed. */
  function ConsumedCount(chunks: seq<Bytes>, rest: seq<Bytes>): nat {
    if |Concat(rest)| <= |Concat(chunks)| then |Concat(chunks)| - |Concat(rest)| else 0
  }

  ghost function Apply(s: State, step: Step): State
    requires Enabled(s, step)
  {
    match step
    case Start(id, kind) => s.(ops := s.ops[id := Op(kind, FirstCheck)])
    case CheckFirst(id) => Move(s, id, if s.closed then Done(Closed) else AwaitLock)
    case TakeLock(id) => SetLock(Move(s, id, SecondCheck), s.ops[id].kind, Some(id))
    case CheckSecond(id) =>
      Move(s, id, if s.closed then Unlock(Closed) else if s.ops[id].kind.Recv? then ReadFrame else EncodeFrame)
    case DoRead(id, chunks, end, verdict) =>
      var (outcome, rest) := ReadChunks(chunks, end, s.max);
      // unwinding drops the lock and goes past finish
      if outcome.Panicked? then Move(s, id, Unlock(Unwound))
      else
        var consumed := ConsumedCount(chunks, rest);
        var value :=
          if outcome.result.Err? then Err(outcome.result.error)
          else if verdict.Some? then Err(verdict.value)
          else Ok(Frame(outcome.result.value));
        Move(s, id, Finish(value)).(input := s.input[consumed..])
    case DoEncode(id) =>
      var payload := s.ops[id].kind.payload;
      if |payload| > s.max then
        Move(s, id, Finish(Err(FrameTooLarge(s.max)))).(sendFailed := true)
      else
        Move(s, id, Write(FrameOf(payload))).(started := s.started + [payload])
    case Emit(id, count) =>
      var rest := s.ops[id].pc.rest;
      Move(s, id, Write(rest[count..])).(output := s.output + rest[..count])
    case WriteFails(id) => Move(s, id, Finish(Err(Io))).(sendFailed := true)
    case Flushed(id) => Move(s, id, Finish(Ok(Sent)))
    case DoFinish(id) =>
      (match s.ops[id].pc.result
       case Ok(value) =>
         if s.closed then Move(s, id, Unlock(Closed))
         else if value.Frame? then Move(s, id, Unlock(Succeeded(value))).(delivered := s.delivered + [value.bytes])
         else Move(s, id, Unlock(Succeeded(value)))
       case Err(error) =>
         if s.closed then Move(s, id, Unlock(Closed))
         else Move(s, id, ShutdownBoth(error)).(closed := true, winner := Some(id)))
    case DoShutdown(id) =>
      Move(s, id, Unlock(FailedWith(s.ops[id].pc.error))).(shutdowns := s.shutdowns + 1)
    case ReleaseLock(id) =>
      SetLock(Move(s, id, Done(s.ops[id].pc.outcome)), s.ops[id].kind, None)
  }

  datatype Run = Run(states: seq<State>, steps: seq<Step>)

  ghost predicate IsRun(run: Run) {
    && |run.states| == |run.steps| + 1
    && Init(run.states[0])
    && forall i | 0 <= i < |run.steps| ::
         Enabled(run.states[i], run.steps[i]) && run.states[i + 1] == Apply(run.states[i], run.steps[i])
  }
}
