/** The inductive invariant of a connection: locks, the single close, the read side, the write side. */
module ConnectionInvariant {
  import opened Common
  import opened Codec
  import opened Connection

  /** The complete lines of a byte stream as the codec reads them. */
  function Lines(stream: Bytes): seq<Bytes>
    decreases |stream|
  {
    var i := FirstLf(stream);
    if i == |stream| then [] else [StripCr(stream[..i])] + Lines(stream[i + 1..])
  }

  predicate InRegion(pc: OpPc) {
    pc.SecondCheck? || pc.ReadFrame? || pc.EncodeFrame? || pc.Write? || pc.Finish? || pc.ShutdownBoth? || pc.Unlock?
  }

  predicate ValueFits(kind: OpKind, value: OpValue) {
    kind.Recv? <==> value.Frame?
  }

  predicate PointFits(kind: OpKind, pc: OpPc) {
    match pc
    case ReadFrame => kind.Recv?
    case EncodeFrame | Write(_) => kind.Send?
    case Finish(Ok(value)) => ValueFits(kind, value)
    case Unlock(Succeeded(value)) => ValueFits(kind, value)
    case Done(Succeeded(value)) => ValueFits(kind, value)
    case _ => true
  }

  ghost predicate Locks(s: State) {
    && (forall id <- s.ops ::
          (InRegion(s.ops[id].pc) <==> LockOf(s, s.ops[id].kind) == Some(id)) && PointFits(s.ops[id].kind, s.ops[id].pc))
    && (s.readLock.Some? ==> s.readLock.value in s.ops && s.ops[s.readLock.value].kind.Recv?)
    && (s.writeLock.Some? ==> s.writeLock.value in s.ops && s.ops[s.writeLock.value].kind.Send?)
  }

  predicate KeepsOwnError(pc: OpPc) {
    pc.ShutdownBoth? || (pc.Unlock? && pc.outcome.FailedWith?) || (pc.Done? && pc.outcome.FailedWith?)
  }

  ghost predicate SingleClose(s: State) {
    && (s.closed <==> s.winner.Some?)
    && (s.winner.Some? ==> s.winner.value in s.ops)
    && (forall id <- s.ops :: KeepsOwnError(s.ops[id].pc) <==> s.winner == Some(id))
    && s.shutdowns == if s.winner.Some? && !s.ops[s.winner.value].pc.ShutdownBoth? then 1 else 0
  }

  function HolderPc(s: State, lock: Option<OpId>): Option<OpPc> {
    if lock.Some? && lock.value in s.ops then Some(s.ops[lock.value].pc) else None
  }

  function ReaderPc(s: State): Option<OpPc> {
    HolderPc(s, s.readLock)
  }

  function WriterPc(s: State): Option<OpPc> {
    HolderPc(s, s.writeLock)
  }

  /** While the connection is open, what was delivered and what is still unread make up the peer's lines. */
  ghost predicate ReadSide(s: State) {
    && s.delivered <= Lines(s.peer)
    && match ReaderPc(s)
       case Some(Finish(Err(_))) => true
       case Some(Finish(Ok(Frame(frame)))) => s.closed || Lines(s.peer) == s.delivered + [frame] + Lines(s.input)
       case _ => s.closed || Lines(s.peer) == s.delivered + Lines(s.input)
  }

  /** The output is every started frame in lock order, the last one possibly cut short by a failed write. */
  ghost predicate WriteSide(s: State) {
    && s.output <= Frames(s.started)
    && (s.started != [] ==> Frames(s.started[..|s.started| - 1]) <= s.output)
    && (forall i | 0 <= i < |s.started| :: |s.started[i]| <= s.max)
    && (s.sendFailed ==> s.closed || WriterFailing(s))
    && match WriterPc(s)
       case Some(Write(rest)) => !s.sendFailed && s.output + rest == Frames(s.started)
       case Some(EncodeFrame) => !s.sendFailed && s.output == Frames(s.started)
       case _ => !s.sendFailed ==> s.output == Frames(s.started)
  }

  predicate WriterFailing(s: State) {
    match WriterPc(s)
    case Some(Finish(Err(_))) => true
    case _ => false
  }

  ghost predicate Inv(s: State) {
    Locks(s) && SingleClose(s) && ReadSide(s) && WriteSide(s)
  }

  lemma InitEstablishes(s: State)
    requires Init(s)
    ensures Inv(s)
  {
    assert [] + Lines(s.input) == Lines(s.input);
  }

  /** One step moves one operation. */
  lemma StepFrame(s: State, step: Step)
    requires Enabled(s, step)
    ensures var t := Apply(s, step); var id := step.id;
            && id in t.ops && t.ops == s.ops[id := t.ops[id]]
            && (id in s.ops ==> t.ops[id].kind == s.ops[id].kind)
            && t.max == s.max && t.peer == s.peer && (s.closed ==> t.closed)
            && (!step.TakeLock? && !step.ReleaseLock? ==> t.readLock == s.readLock && t.writeLock == s.writeLock)
  {
    hide ReadChunks, Concat, NonEmpty, FrameOf;
  }

  lemma LocksKept(s: State, t: State, id: OpId)
    requires Locks(s) && id in t.ops && t.ops == s.ops[id := t.ops[id]]
    requires t.readLock == s.readLock && t.writeLock == s.writeLock
    requires PointFits(t.ops[id].kind, t.ops[id].pc)
    requires if id in s.ops then t.ops[id].kind == s.ops[id].kind && InRegion(t.ops[id].pc) == InRegion(s.ops[id].pc)
             else !InRegion(t.ops[id].pc)
    ensures Locks(t)
  {}

  lemma LockChanged(s: State, t: State, id: OpId, holder: Option<OpId>)
    requires Locks(s) && id in s.ops
    requires var kind := s.ops[id].kind;
             && id in t.ops && t.ops == s.ops[id := t.ops[id]] && t.ops[id].kind == kind && PointFits(kind, t.ops[id].pc)
             && t.readLock == (if kind.Recv? then holder else s.readLock)
             && t.writeLock == (if kind.Recv? then s.writeLock else holder)
    requires if holder.None? then LockOf(s, s.ops[id].kind) == Some(id) && !InRegion(t.ops[id].pc)
             else holder == Some(id) && LockOf(s, s.ops[id].kind) == None && InRegion(t.ops[id].pc)
    ensures Locks(t)
  {
    forall other <- t.ops ensures InRegion(t.ops[other].pc) <==> LockOf(t, t.ops[other].kind) == Some(other) {
      if other != id {
        assert t.ops[other] == s.ops[other];
      }
    }
  }

  lemma PointStaysInRegion(s: State, step: Step)
    requires Enabled(s, step) && !step.TakeLock? && !step.ReleaseLock?
    requires step.id in s.ops ==> PointFits(s.ops[step.id].kind, s.ops[step.id].pc)
    ensures var t := Apply(s, step); var id := step.id;
            && PointFits(t.ops[id].kind, t.ops[id].pc)
            && (if id in s.ops then InRegion(t.ops[id].pc) == InRegion(s.ops[id].pc) else !InRegion(t.ops[id].pc))
  {
    hide ReadChunks, Concat, NonEmpty, FrameOf;
  }

  lemma StepKeepsLocks(s: State, step: Step)
    requires Locks(s) && Enabled(s, step)
    ensures Locks(Apply(s, step))
  {
    if step.TakeLock? {
      LockChanged(s, Apply(s, step), step.id, Some(step.id));
    } else if step.ReleaseLock? {
      assert PointFits(s.ops[step.id].kind, s.ops[step.id].pc);
      LockChanged(s, Apply(s, step), step.id, None);
    } else {
      PointStaysInRegion(s, step);
      StepFrame(s, step);
      hide Enabled, Apply, Locks;
      LocksKept(s, Apply(s, step), step.id);
    }
  }

  lemma CloseKept(s: State, t: State, id: OpId)
    requires SingleClose(s) && id in t.ops && t.ops == s.ops[id := t.ops[id]]
    requires t.closed == s.closed && t.winner == s.winner && t.shutdowns == s.shutdowns
    requires if id in s.ops then
               KeepsOwnError(t.ops[id].pc) == KeepsOwnError(s.ops[id].pc) && t.ops[id].pc.ShutdownBoth? == s.ops[id].pc.ShutdownBoth?
             else !KeepsOwnError(t.ops[id].pc)
    ensures SingleClose(t)
  {}

  lemma QuietForClose(s: State, step: Step)
    requires Enabled(s, step) && !step.DoFinish? && !step.DoShutdown?
    ensures var t := Apply(s, step); var id := step.id;
            && t.closed == s.closed && t.winner == s.winner && t.shutdowns == s.shutdowns
            && (if id in s.ops then
                  KeepsOwnError(t.ops[id].pc) == KeepsOwnError(s.ops[id].pc) && t.ops[id].pc.ShutdownBoth? == s.ops[id].pc.ShutdownBoth?
                else !KeepsOwnError(t.ops[id].pc))
  {
    hide ReadChunks, Concat, NonEmpty, FrameOf;
  }

  lemma FinishKeepsClose(s: State, step: Step)
    requires SingleClose(s) && Enabled(s, step) && (step.DoFinish? || step.DoShutdown?)
    ensures SingleClose(Apply(s, step))
  {
    hide ReadChunks, Concat, NonEmpty, FrameOf;
    var t := Apply(s, step);
    forall id <- t.ops ensures KeepsOwnError(t.ops[id].pc) <==> t.winner == Some(id) {
      if id != step.id {
        assert t.ops[id] == s.ops[id];
      }
    }
  }

  lemma StepKeepsClose(s: State, step: Step)
    requires SingleClose(s) && Enabled(s, step)
    ensures SingleClose(Apply(s, step))
  {
    if step.DoFinish? || step.DoShutdown? {
      FinishKeepsClose(s, step);
    } else {
      StepFrame(s, step);
      QuietForClose(s, step);
      hide Enabled, Apply, SingleClose;
      CloseKept(s, Apply(s, step), step.id);
    }
  }

  // The read side

  predicate Reading(pc: Option<OpPc>) {
    pc.Some? && pc.value.Finish?
  }

  /** Steps that neither read nor end a read leave the read side alone. */
  lemma ReadSideKept(s: State, t: State)
    requires ReadSide(s) && t.peer == s.peer && t.input == s.input && t.delivered == s.delivered
    requires s.closed ==> t.closed
    requires ReaderPc(t) == ReaderPc(s) || (!Reading(ReaderPc(s)) && !Reading(ReaderPc(t)))
    ensures ReadSide(t)
  {}

  lemma PrefixLine(stream: Bytes, whole: Bytes)
    requires stream <= whole && FirstLf(stream) < |stream|
    ensures FirstLf(whole) == FirstLf(stream)
    ensures whole[..FirstLf(whole)] == stream[..FirstLf(stream)]
  {
    FirstLfIs(stream, FirstLf(stream));
    FirstLfIs(whole, FirstLf(stream));
  }

  lemma ReadTakesLine(s: State, chunks: seq<Bytes>, end: StreamEnd)
    requires NonEmpty(chunks) && Concat(chunks) <= s.input
    ensures var (outcome, rest) := ReadChunks(chunks, end, s.max);
            && ConsumedCount(chunks, rest) <= |s.input|
            && (outcome.Returned? && outcome.result.Ok? ==>
                  Lines(s.input) == [outcome.result.value] + Lines(s.input[ConsumedCount(chunks, rest)..]))
  {
    ReadMatchesSpec(chunks, end, s.max);
    hide ReadChunks;
    var (outcome, rest) := ReadChunks(chunks, end, s.max);
    if outcome.Returned? && outcome.result.Ok? {
      var result := outcome.result;
      var stream := Concat(chunks);
      hide Concat, NonEmpty, FirstLf;
      PrefixLine(stream, s.input);
      assert ConsumedCount(chunks, rest) == FirstLf(s.input) + 1;
      assert result.value == StripCr(s.input[..FirstLf(s.input)]);
    }
  }

  /** What a read does to the side it reads. */
  lemma ReadEffect(s: State, step: Step)
    requires Locks(s) && Enabled(s, step) && step.DoRead?
    ensures var (outcome, rest) := ReadChunks(step.chunks, step.end, s.max); var t := Apply(s, step);
            && ReaderPc(s) == Some(ReadFrame)
            && t.peer == s.peer && t.delivered == s.delivered && t.closed == s.closed
            && (if outcome.Panicked? then t.input == s.input && ReaderPc(t) == Some(Unlock(Unwound))
                else
                  && t.input == s.input[ConsumedCount(step.chunks, rest)..]
                  && ReaderPc(t).Some? && ReaderPc(t).value.Finish?
                  && var result := ReaderPc(t).value.result;
                     result.Ok? ==> outcome.result.Ok? && result.value == Frame(outcome.result.value))
  {
    ReadTakesLine(s, step.chunks, step.end);
    hide ReadChunks, Lines, Concat, NonEmpty, FrameOf, ConsumedCount, PointFits;
    assert s.readLock == Some(step.id);
  }

  lemma DoReadKeepsReadSide(s: State, step: Step)
    requires Locks(s) && ReadSide(s) && Enabled(s, step) && step.DoRead?
    ensures ReadSide(Apply(s, step))
  {
    ReadTakesLine(s, step.chunks, step.end);
    ReadEffect(s, step);
    hide ReadChunks, Lines, Concat, NonEmpty, FrameOf, ConsumedCount, PointFits, Apply, Locks, ReaderPc;
    var t := Apply(s, step);
    var (outcome, rest) := ReadChunks(step.chunks, step.end, s.max);
    if outcome.Returned? && outcome.result.Ok? && !s.closed {
      var value := outcome.result.value;
      assert s.delivered + ([value] + Lines(t.input)) == s.delivered + [value] + Lines(t.input);
    }
  }

  lemma FinishKeepsReadSide(s: State, step: Step)
    requires Locks(s) && ReadSide(s) && Enabled(s, step) && step.DoFinish? && s.ops[step.id].kind.Recv?
    ensures ReadSide(Apply(s, step))
  {
    hide ReadChunks, Lines, Concat, NonEmpty;
    assert s.readLock == Some(step.id);
  }

  predicate QuietStep(s: State, step: Step)
    requires step.DoFinish? ==> step.id in s.ops
  {
    !step.DoRead? && !(step.DoFinish? && s.ops[step.id].kind.Recv?)
  }

  lemma QuietForInput(s: State, step: Step)
    requires Locks(s) && Enabled(s, step) && QuietStep(s, step)
    ensures var t := Apply(s, step); t.input == s.input && t.delivered == s.delivered
  {
    hide ReadChunks, Concat, NonEmpty, FrameOf;
  }

  lemma QuietForReader(s: State, step: Step)
    requires Locks(s) && Enabled(s, step) && QuietStep(s, step)
    ensures var t := Apply(s, step);
            ReaderPc(t) == ReaderPc(s) || (!Reading(ReaderPc(s)) && !Reading(ReaderPc(t)))
  {
    hide ReadChunks, Concat, NonEmpty, FrameOf;
  }

  lemma StepKeepsReadSide(s: State, step: Step)
    requires Locks(s) && ReadSide(s) && Enabled(s, step)
    ensures ReadSide(Apply(s, step))
  {
    if step.DoRead? {
      DoReadKeepsReadSide(s, step);
    } else if step.DoFinish? && s.ops[step.id].kind.Recv? {
      FinishKeepsReadSide(s, step);
    } else {
      StepFrame(s, step);
      QuietForInput(s, step);
      QuietForReader(s, step);
      hide Apply, Enabled, ReadSide;
      ReadSideKept(s, Apply(s, step));
    }
  }

  // The write side

  predicate Sending(pc: Option<OpPc>) {
    pc.Some? && (pc.value.Write? || pc.value.EncodeFrame? || pc.value.Finish?)
  }

  lemma WriteSideKept(s: State, t: State)
    requires WriteSide(s) && t.max == s.max && t.output == s.output && t.started == s.started && t.sendFailed == s.sendFailed
    requires s.closed ==> t.closed
    requires || WriterPc(t) == WriterPc(s)
             || (!Sending(WriterPc(t)) && (!Sending(WriterPc(s)) || t.closed || !WriterFailing(s)) && (WriterPc(s).Some? ==> !WriterPc(s).value.Write?))
    ensures WriteSide(t)
  {}

  lemma {:induction false} FramesAppend(payloads: seq<Bytes>, payload: Bytes)
    ensures Frames(payloads + [payload]) == Frames(payloads) + FrameOf(payload)
  {
    if payloads != [] {
      FramesAppend(payloads[1..], payload);
      assert (payloads + [payload])[1..] == payloads[1..] + [payload];
    } else {
      assert Frames([payload]) == FrameOf(payload) + Frames([]);
    }
  }

  lemma EncodeKeepsWriteSide(s: State, step: Step)
    requires Locks(s) && WriteSide(s) && Enabled(s, step) && step.DoEncode?
    ensures WriteSide(Apply(s, step))
  {
    var t := Apply(s, step);
    assert s.writeLock == Some(step.id);
    if t.started != s.started {
      FramesAppend(s.started, s.ops[step.id].kind.payload);
      assert t.started[..|s.started|] == s.started;
    }
    hide Frames;
  }

  lemma EmitKeepsWriteSide(s: State, step: Step)
    requires Locks(s) && WriteSide(s) && Enabled(s, step) && step.Emit?
    ensures WriteSide(Apply(s, step))
  {
    hide Frames;
    var t := Apply(s, step);
    assert s.writeLock == Some(step.id);
    var rest := s.ops[step.id].pc.rest;
    assert rest == rest[..step.count] + rest[step.count..];
    assert t.output + rest[step.count..] == s.output + rest;
  }

  lemma WriteEndsKeepsWriteSide(s: State, step: Step)
    requires Locks(s) && WriteSide(s) && Enabled(s, step) && (step.WriteFails? || step.Flushed?)
    ensures WriteSide(Apply(s, step))
  {
    hide Frames;
    assert s.writeLock == Some(step.id);
  }

  lemma SecondCheckKeepsWriteSide(s: State, step: Step)
    requires Locks(s) && WriteSide(s) && Enabled(s, step) && step.CheckSecond? && s.ops[step.id].kind.Send?
    ensures WriteSide(Apply(s, step))
  {
    hide ReadChunks, Frames;
    assert s.writeLock == Some(step.id);
  }

  lemma QuietForWriter(s: State, step: Step)
    requires Locks(s) && Enabled(s, step)
    requires !step.DoEncode? && !step.Emit? && !step.WriteFails? && !step.Flushed?
    requires !(step.CheckSecond? && s.ops[step.id].kind.Send?)
    ensures var t := Apply(s, step);
            && t.output == s.output && t.started == s.started && t.sendFailed == s.sendFailed
            && (|| WriterPc(t) == WriterPc(s)
                || (!Sending(WriterPc(t)) && (!Sending(WriterPc(s)) || t.closed || !WriterFailing(s)) && (WriterPc(s).Some? ==> !WriterPc(s).value.Write?)))
  {
    hide ReadChunks, Concat, NonEmpty, FrameOf, Frames;
    StepFrame(s, step);
    var t := Apply(s, step);
    if s.writeLock.Some? && s.writeLock.value != step.id {
      assert step.TakeLock? || step.ReleaseLock? ==> s.ops[step.id].kind.Recv?;
      assert t.writeLock == s.writeLock;
    }
  }

  lemma StepKeepsWriteSide(s: State, step: Step)
    requires Locks(s) && WriteSide(s) && Enabled(s, step)
    ensures WriteSide(Apply(s, step))
  {
    if step.DoEncode? {
      EncodeKeepsWriteSide(s, step);
    } else if step.Emit? {
      EmitKeepsWriteSide(s, step);
    } else if step.WriteFails? || step.Flushed? {
      WriteEndsKeepsWriteSide(s, step);
    } else if step.CheckSecond? && s.ops[step.id].kind.Send? {
      SecondCheckKeepsWriteSide(s, step);
    } else {
      StepFrame(s, step);
      QuietForWriter(s, step);
      hide Apply, Enabled, WriteSide;
      WriteSideKept(s, Apply(s, step));
    }
  }

  lemma StepKeepsInv(s: State, step: Step)
    requires Inv(s) && Enabled(s, step)
    ensures Inv(Apply(s, step))
  {
    hide Apply, Enabled, Locks, SingleClose, ReadSide, WriteSide;
    StepKeepsLocks(s, step);
    StepKeepsClose(s, step);
    StepKeepsReadSide(s, step);
    StepKeepsWriteSide(s, step);
  }

  lemma {:induction false} RunKeepsInv(run: Run, i: nat)
    requires IsRun(run) && i < |run.states|
    ensures Inv(run.states[i])
  {
    if i == 0 {
      InitEstablishes(run.states[0]);
    } else {
      RunKeepsInv(run, i - 1);
      StepKeepsInv(run.states[i - 1], run.steps[i - 1]);
    }
  }
}
