/** What one operation does on a connection that nobody else uses in the meantime. */
module ConnectionService {
  import opened Common
  import opened Codec
  import opened Connection

  ghost predicate Leads(s: State, step: Step, t: State) {
    Enabled(s, step) && Apply(s, step) == t
  }

  /** The steps lead from each state to the next one. */
  ghost predicate Path(states: seq<State>, steps: seq<Step>) {
    |states| == |steps| + 1 && forall i | 0 <= i < |steps| :: Leads(states[i], steps[i], states[i + 1])
  }

  /** Open, and the lock is free. */
  predicate Free(s: State, id: OpId, kind: OpKind) {
    !s.closed && id !in s.ops && LockOf(s, kind).None?
  }

  /** The state with the operation at this point, holding its lock or not. */
  function At(s: State, id: OpId, kind: OpKind, pc: OpPc, holding: bool): State {
    SetLock(s.(ops := s.ops[id := Op(kind, pc)]), kind, if holding then Some(id) else None)
  }

  lemma Moves(s: State, id: OpId, kind: OpKind, pc: OpPc, next: OpPc, holding: bool)
    requires LockOf(s, kind).None?
    ensures id in At(s, id, kind, pc, holding).ops
    ensures Move(At(s, id, kind, pc, holding), id, next) == At(s, id, kind, next, holding)
  {
    assert s.ops[id := Op(kind, pc)][id := Op(kind, next)] == s.ops[id := Op(kind, next)];
  }

  /** The way in: both looks at the flag, and the lock. */
  lemma Enters(s: State, id: OpId, kind: OpKind)
    requires Free(s, id, kind)
    ensures Path([s, At(s, id, kind, FirstCheck, false), At(s, id, kind, AwaitLock, false), At(s, id, kind, SecondCheck, true),
                  At(s, id, kind, if kind.Recv? then ReadFrame else EncodeFrame, true)],
                 [Start(id, kind), CheckFirst(id), TakeLock(id), CheckSecond(id)])
  {
    hide ReadChunks, Concat, NonEmpty, FrameOf;
    Moves(s, id, kind, FirstCheck, AwaitLock, false);
    Moves(s, id, kind, AwaitLock, SecondCheck, false);
    Moves(s, id, kind, SecondCheck, if kind.Recv? then ReadFrame else EncodeFrame, true);
  }

  /** What a result does to an open connection. */
  function Settled(s: State, id: OpId, result: Result<OpValue, TransportError>): State {
    match result
    case Ok(Frame(bytes)) => s.(delivered := s.delivered + [bytes])
    case Ok(Sent) => s
    case Err(_) => s.(closed := true, winner := Some(id), shutdowns := s.shutdowns + 1)
  }

  function OutcomeOf(result: Result<OpValue, TransportError>): Outcome {
    match result
    case Ok(value) => Succeeded(value)
    case Err(error) => FailedWith(error)
  }

  /** The way out with a value. */
  lemma LeavesWithValue(s: State, id: OpId, kind: OpKind, value: OpValue)
    requires !s.closed && LockOf(s, kind).None?
    ensures var t := Settled(s, id, Ok(value));
            Path([At(s, id, kind, Finish(Ok(value)), true), At(t, id, kind, Unlock(Succeeded(value)), true),
                  At(t, id, kind, Done(Succeeded(value)), false)],
                 [DoFinish(id), ReleaseLock(id)])
  {
    hide ReadChunks, Concat, NonEmpty, FrameOf;
    Moves(s, id, kind, Finish(Ok(value)), Unlock(Succeeded(value)), true);
    Moves(Settled(s, id, Ok(value)), id, kind, Unlock(Succeeded(value)), Done(Succeeded(value)), true);
  }

  /** And with an error: the connection is closed, and shut down once. */
  lemma LeavesWithError(s: State, id: OpId, kind: OpKind, error: TransportError)
    requires !s.closed && LockOf(s, kind).None?
    ensures var t := s.(closed := true, winner := Some(id)); var u := Settled(s, id, Err(error));
            Path([At(s, id, kind, Finish(Err(error)), true), At(t, id, kind, ShutdownBoth(error), true),
                  At(u, id, kind, Unlock(FailedWith(error)), true), At(u, id, kind, Done(FailedWith(error)), false)],
                 [DoFinish(id), DoShutdown(id), ReleaseLock(id)])
  {
    hide ReadChunks, Concat, NonEmpty, FrameOf;
    Moves(s, id, kind, Finish(Err(error)), ShutdownBoth(error), true);
    Moves(s.(closed := true, winner := Some(id)), id, kind, ShutdownBoth(error), Unlock(FailedWith(error)), true);
    Moves(Settled(s, id, Err(error)), id, kind, Unlock(FailedWith(error)), Done(FailedWith(error)), true);
  }

  /** What the bytes and the decoder make of a read. */
  function ReadResult(frame: Result<Bytes, TransportError>, verdict: Option<TransportError>): Result<OpValue, TransportError> {
    match (frame, verdict)
    case (Err(error), _) => Err(error)
    case (Ok(_), Some(error)) => Err(error)
    case (Ok(bytes), None) => Ok(Frame(bytes))
  }

  lemma ReadMoves(s: State, id: OpId, chunks: seq<Bytes>, end: StreamEnd, verdict: Option<TransportError>)
    requires s.readLock.None? && NonEmpty(chunks) && Concat(chunks) <= s.input
    ensures var (outcome, rest) := ReadChunks(chunks, end, s.max);
            ConsumedCount(chunks, rest) <= |s.input| &&
            Leads(At(s, id, Recv, ReadFrame, true), DoRead(id, chunks, end, verdict),
                  if outcome.Panicked? then At(s, id, Recv, Unlock(Unwound), true)
                  else At(s.(input := s.input[ConsumedCount(chunks, rest)..]), id, Recv,
                          Finish(ReadResult(outcome.result, verdict)), true))
  {
    assert |Concat(chunks)| <= |s.input|;
    hide ReadChunks, Concat, NonEmpty, FrameOf, ConsumedCount;
    var (outcome, rest) := ReadChunks(chunks, end, s.max);
    assert ConsumedCount(chunks, rest) <= |Concat(chunks)| by {
      ConsumedAtMostAll(chunks, rest);
    }
    if outcome.Panicked? {
      Moves(s, id, Recv, ReadFrame, Unlock(Unwound), true);
    } else {
      Moves(s, id, Recv, ReadFrame, Finish(ReadResult(outcome.result, verdict)), true);
    }
  }

  lemma ConsumedAtMostAll(chunks: seq<Bytes>, rest: seq<Bytes>)
    ensures ConsumedCount(chunks, rest) <= |Concat(chunks)|
  {}

  /** In the lock, a read comes to what the byte stream says, and consumes what the codec consumes. */
  lemma Reads(s: State, id: OpId, chunks: seq<Bytes>, end: StreamEnd, verdict: Option<TransportError>)
    requires s.readLock.None? && NonEmpty(chunks) && Concat(chunks) <= s.input
    ensures var frame := ReadSpec(Concat(chunks), end, s.max); var rest := Concat(ReadChunks(chunks, end, s.max).1);
            && |rest| <= |Concat(chunks)|
            && Leads(At(s, id, Recv, ReadFrame, true), DoRead(id, chunks, end, verdict),
                     if frame.Panicked? then At(s, id, Recv, Unlock(Unwound), true)
                     else At(s.(input := s.input[|Concat(chunks)| - |rest|..]), id, Recv,
                             Finish(ReadResult(frame.result, verdict)), true))
  {
    ReadMatchesSpec(chunks, end, s.max);
    ReadMoves(s, id, chunks, end, verdict);
    hide ReadChunks, ReadSpec, Concat, NonEmpty, Leads, At;
  }

  /** A panicking read gives its lock back and leaves everything else alone. */
  lemma LeavesUnwound(s: State, id: OpId)
    requires s.readLock.None?
    ensures Leads(At(s, id, Recv, Unlock(Unwound), true), ReleaseLock(id), At(s, id, Recv, Done(Unwound), false))
  {
    hide ReadChunks, Concat, NonEmpty, FrameOf;
    Moves(s, id, Recv, Unlock(Unwound), Done(Unwound), true);
  }

  /** In the lock, a send comes to an error without a byte if the payload is too large, and starts its frame otherwise. */
  lemma Encodes(s: State, id: OpId, payload: Bytes)
    requires s.writeLock.None?
    ensures Leads(At(s, id, Send(payload), EncodeFrame, true), DoEncode(id),
                  if |payload| > s.max then
                    At(s.(sendFailed := true), id, Send(payload), Finish(Err(FrameTooLarge(s.max))), true)
                  else At(s.(started := s.started + [payload]), id, Send(payload), Write(FrameOf(payload)), true))
  {
    hide ReadChunks, Concat, NonEmpty;
    Moves(s, id, Send(payload), EncodeFrame, Finish(Err(FrameTooLarge(s.max))), true);
    Moves(s, id, Send(payload), EncodeFrame, Write(FrameOf(payload)), true);
  }

  /** The transport takes any front part of what is left, all of it in the end, or fails. */
  lemma Writes(s: State, id: OpId, payload: Bytes, rest: Bytes, count: nat)
    requires s.writeLock.None? && 1 <= count <= |rest|
    ensures Leads(At(s, id, Send(payload), Write(rest), true), Emit(id, count),
                  At(s.(output := s.output + rest[..count]), id, Send(payload), Write(rest[count..]), true))
    ensures Leads(At(s, id, Send(payload), Write(rest), true), WriteFails(id),
                  At(s.(sendFailed := true), id, Send(payload), Finish(Err(Io)), true))
    ensures Leads(At(s, id, Send(payload), Write([]), true), Flushed(id),
                  At(s, id, Send(payload), Finish(Ok(Sent)), true))
  {
    hide ReadChunks, Concat, NonEmpty, FrameOf;
    Moves(s, id, Send(payload), Write(rest), Write(rest[count..]), true);
    Moves(s, id, Send(payload), Write(rest), Finish(Err(Io)), true);
    Moves(s, id, Send(payload), Write([]), Finish(Ok(Sent)), true);
  }

  // A whole operation

  ghost predicate CanBecome(s: State, t: State) {
    exists states: seq<State>, steps: seq<Step> :: Path(states, steps) && states[0] == s && states[|steps|] == t
  }

  lemma Becomes(states: seq<State>, steps: seq<Step>)
    requires Path(states, steps)
    ensures CanBecome(states[0], states[|steps|])
  {}

  lemma LeadsOn(s: State, step: Step, t: State)
    requires Leads(s, step, t)
    ensures CanBecome(s, t)
  {
    hide Leads;
    assert Path([s, t], [step]);
    Becomes([s, t], [step]);
  }

  lemma GoesOn(s: State, t: State, u: State)
    requires CanBecome(s, t) && CanBecome(t, u)
    ensures CanBecome(s, u)
  {
    hide Leads;
    var a: seq<State>, x: seq<Step> :| Path(a, x) && a[0] == s && a[|x|] == t;
    var b: seq<State>, y: seq<Step> :| Path(b, y) && b[0] == t && b[|y|] == u;
    var states, steps := a + b[1..], x + y;
    forall i | 0 <= i < |steps| ensures Leads(states[i], steps[i], states[i + 1]) {
      if i < |x| {
        assert states[i] == a[i] && states[i + 1] == a[i + 1];
      } else {
        assert states[i] == b[i - |x|] && states[i + 1] == b[i + 1 - |x|];
      }
    }
    Becomes(states, steps);
  }

  lemma Leaves(s: State, id: OpId, kind: OpKind, result: Result<OpValue, TransportError>)
    requires !s.closed && LockOf(s, kind).None?
    ensures CanBecome(At(s, id, kind, Finish(result), true), At(Settled(s, id, result), id, kind, Done(OutcomeOf(result)), false))
  {
    match result {
      case Ok(value) =>
        LeavesWithValue(s, id, kind, value);
        hide Leads, Path, At, Settled;
        var t := Settled(s, id, Ok(value));
        Becomes([At(s, id, kind, Finish(Ok(value)), true), At(t, id, kind, Unlock(Succeeded(value)), true),
                 At(t, id, kind, Done(Succeeded(value)), false)],
                [DoFinish(id), ReleaseLock(id)]);
      case Err(error) =>
        LeavesWithError(s, id, kind, error);
        hide Leads, Path, At, Settled;
        var t := s.(closed := true, winner := Some(id));
        var u := Settled(s, id, Err(error));
        Becomes([At(s, id, kind, Finish(Err(error)), true), At(t, id, kind, ShutdownBoth(error), true),
                 At(u, id, kind, Unlock(FailedWith(error)), true), At(u, id, kind, Done(FailedWith(error)), false)],
                [DoFinish(id), DoShutdown(id), ReleaseLock(id)]);
    }
  }

  lemma Arrives(s: State, id: OpId, kind: OpKind)
    requires Free(s, id, kind)
    ensures CanBecome(s, At(s, id, kind, if kind.Recv? then ReadFrame else EncodeFrame, true))
  {
    Enters(s, id, kind);
    hide Leads, Path, At;
    Becomes([s, At(s, id, kind, FirstCheck, false), At(s, id, kind, AwaitLock, false), At(s, id, kind, SecondCheck, true),
             At(s, id, kind, if kind.Recv? then ReadFrame else EncodeFrame, true)],
            [Start(id, kind), CheckFirst(id), TakeLock(id), CheckSecond(id)]);
  }

  /** A lone recv returns what the bytes that arrive say: the frame, delivered, or the error, with the connection closed and
      shut down once, or, for a buffer that cannot be allocated, nothing at all. */
  lemma LoneRecv(s: State, id: OpId, chunks: seq<Bytes>, end: StreamEnd, verdict: Option<TransportError>)
    requires Free(s, id, Recv) && NonEmpty(chunks) && Concat(chunks) <= s.input
    ensures var frame := ReadSpec(Concat(chunks), end, s.max); var rest := Concat(ReadChunks(chunks, end, s.max).1);
            && |rest| <= |Concat(chunks)|
            && if frame.Panicked? then CanBecome(s, At(s, id, Recv, Done(Unwound), false))
               else
                 var result := ReadResult(frame.result, verdict);
                 var read := s.(input := s.input[|Concat(chunks)| - |rest|..]);
                 CanBecome(s, At(Settled(read, id, result), id, Recv, Done(OutcomeOf(result)), false))
  {
    Arrives(s, id, Recv);
    Reads(s, id, chunks, end, verdict);
    hide Leads, Path, At, Settled, CanBecome, ReadSpec, ReadChunks, Concat, NonEmpty;
    var frame := ReadSpec(Concat(chunks), end, s.max);
    var inside := At(s, id, Recv, ReadFrame, true);
    if frame.Panicked? {
      LeavesUnwound(s, id);
      LeadsOn(inside, DoRead(id, chunks, end, verdict), At(s, id, Recv, Unlock(Unwound), true));
      LeadsOn(At(s, id, Recv, Unlock(Unwound), true), ReleaseLock(id), At(s, id, Recv, Done(Unwound), false));
      GoesOn(s, inside, At(s, id, Recv, Unlock(Unwound), true));
      GoesOn(s, At(s, id, Recv, Unlock(Unwound), true), At(s, id, Recv, Done(Unwound), false));
    } else {
      var result := ReadResult(frame.result, verdict);
      var read := s.(input := s.input[|Concat(chunks)| - |Concat(ReadChunks(chunks, end, s.max).1)|..]);
      LeadsOn(inside, DoRead(id, chunks, end, verdict), At(read, id, Recv, Finish(result), true));
      Leaves(read, id, Recv, result);
      GoesOn(s, inside, At(read, id, Recv, Finish(result), true));
      GoesOn(s, At(read, id, Recv, Finish(result), true), At(Settled(read, id, result), id, Recv, Done(OutcomeOf(result)), false));
    }
  }

  /** A lone send of a payload that is too large fails without a byte. */
  lemma LoneSendTooLarge(s: State, id: OpId, payload: Bytes)
    requires Free(s, id, Send(payload)) && |payload| > s.max
    ensures var t := s.(sendFailed := true); var result := Err(FrameTooLarge(s.max));
            CanBecome(s, At(Settled(t, id, result), id, Send(payload), Done(FailedWith(FrameTooLarge(s.max))), false))
  {
    var kind := Send(payload);
    var t, result := s.(sendFailed := true), Err(FrameTooLarge(s.max));
    Arrives(s, id, kind);
    Encodes(s, id, payload);
    Leaves(t, id, kind, result);
    hide Leads, Path, At, Settled, CanBecome;
    LeadsOn(At(s, id, kind, EncodeFrame, true), DoEncode(id), At(t, id, kind, Finish(result), true));
    GoesOn(s, At(s, id, kind, EncodeFrame, true), At(t, id, kind, Finish(result), true));
    GoesOn(s, At(t, id, kind, Finish(result), true), At(Settled(t, id, result), id, kind, Done(OutcomeOf(result)), false));
  }

  /** After a front part of the frame, whichever, the send can go on from what is left of it. */
  lemma WrittenUpTo(s: State, id: OpId, payload: Bytes, count: nat)
    requires Free(s, id, Send(payload)) && |payload| <= s.max && count <= |payload| + 1
    ensures var t := s.(started := s.started + [payload], output := s.output + FrameOf(payload)[..count]);
            CanBecome(s, At(t, id, Send(payload), Write(FrameOf(payload)[count..]), true))
  {
    var kind, frame := Send(payload), FrameOf(payload);
    var begun := s.(started := s.started + [payload]);
    Arrives(s, id, kind);
    Encodes(s, id, payload);
    LeadsOn(At(s, id, kind, EncodeFrame, true), DoEncode(id), At(begun, id, kind, Write(frame), true));
    assert |frame| == |payload| + 1;
    hide Leads, Path, At, CanBecome, FrameOf;
    GoesOn(s, At(s, id, kind, EncodeFrame, true), At(begun, id, kind, Write(frame), true));
    if count == 0 {
      assert frame[..0] == [] && frame[0..] == frame && s.output + [] == s.output;
    } else {
      Writes(begun, id, payload, frame, count);
      var t := begun.(output := begun.output + frame[..count]);
      LeadsOn(At(begun, id, kind, Write(frame), true), Emit(id, count), At(t, id, kind, Write(frame[count..]), true));
      GoesOn(s, At(begun, id, kind, Write(frame), true), At(t, id, kind, Write(frame[count..]), true));
    }
  }

  /** A lone send puts its whole frame out and succeeds, or, where the transport fails, any front part of it, and closes. */
  lemma LoneSend(s: State, id: OpId, payload: Bytes, count: nat)
    requires Free(s, id, Send(payload)) && |payload| <= s.max && count <= |payload|
    ensures var t := s.(started := s.started + [payload], output := s.output + FrameOf(payload));
            CanBecome(s, At(t, id, Send(payload), Done(Succeeded(Sent)), false))
    ensures var t := s.(started := s.started + [payload], output := s.output + FrameOf(payload)[..count], sendFailed := true);
            CanBecome(s, At(Settled(t, id, Err(Io)), id, Send(payload), Done(FailedWith(Io)), false))
  {
    var kind, frame := Send(payload), FrameOf(payload);
    var whole := s.(started := s.started + [payload], output := s.output + frame[..|frame|]);
    var part := s.(started := s.started + [payload], output := s.output + frame[..count]);
    var failed := part.(sendFailed := true);
    assert |frame| == |payload| + 1 && frame[..|frame|] == frame && frame[|frame|..] == [];
    WrittenUpTo(s, id, payload, |frame|);
    WrittenUpTo(s, id, payload, count);
    Writes(whole, id, payload, frame, |frame|);
    Writes(part, id, payload, frame[count..], 1);
    Leaves(whole, id, kind, Ok(Sent));
    Leaves(failed, id, kind, Err(Io));
    assert Settled(whole, id, Ok(Sent)) == whole;
    hide Leads, Path, At, CanBecome, FrameOf, Settled;
    LeadsOn(At(whole, id, kind, Write([]), true), Flushed(id), At(whole, id, kind, Finish(Ok(Sent)), true));
    GoesOn(s, At(whole, id, kind, Write([]), true), At(whole, id, kind, Finish(Ok(Sent)), true));
    GoesOn(s, At(whole, id, kind, Finish(Ok(Sent)), true), At(whole, id, kind, Done(Succeeded(Sent)), false));
    LeadsOn(At(part, id, kind, Write(frame[count..]), true), WriteFails(id), At(failed, id, kind, Finish(Err(Io)), true));
    GoesOn(s, At(part, id, kind, Write(frame[count..]), true), At(failed, id, kind, Finish(Err(Io)), true));
    GoesOn(s, At(failed, id, kind, Finish(Err(Io)), true), At(Settled(failed, id, Err(Io)), id, kind, Done(FailedWith(Io)), false));
  }
}
