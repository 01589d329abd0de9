/** What every run of operations on a connection guarantees. */
module ConnectionTheorems {
  import opened Common
  import opened Codec
  import opened Connection
  import opened ConnectionInvariant

  /** Delivered messages are the peer's first lines, in order and unchanged, whatever the chunking, the errors and
      the closes from the other direction. */
  lemma DeliveredIsAPrefixOfLines(run: Run, i: nat)
    requires IsRun(run) && i < |run.states|
    ensures run.states[i].delivered <= Lines(run.states[i].peer)
  {
    RunKeepsInv(run, i);
  }

  predicate SucceededWith(pc: OpPc, value: OpValue) {
    pc == Unlock(Succeeded(value)) || pc == Done(Succeeded(value))
  }

  lemma StepAfterClose(s: State, step: Step)
    requires s.closed && Enabled(s, step)
    ensures var t := Apply(s, step);
            && t.closed && t.winner == s.winner && t.delivered == s.delivered
            && (forall id, value | id in t.ops && SucceededWith(t.ops[id].pc, value) ::
                  id in s.ops && SucceededWith(s.ops[id].pc, value))
  {
    hide ReadChunks, Concat, NonEmpty, FrameOf;
    StepFrame(s, step);
    var t := Apply(s, step);
    forall id, value | id in t.ops && SucceededWith(t.ops[id].pc, value)
      ensures id in s.ops && SucceededWith(s.ops[id].pc, value)
    {
      if id != step.id {
        assert t.ops[id] == s.ops[id];
      }
    }
  }

  /** After the flip nothing is delivered, nothing succeeds that had not succeeded, and the winner stays the winner. */
  lemma {:induction false} NothingSucceedsAfterClose(run: Run, i: nat, j: nat)
    requires IsRun(run) && i <= j < |run.states| && run.states[i].closed
    ensures run.states[j].closed && run.states[j].winner == run.states[i].winner
    ensures run.states[j].delivered == run.states[i].delivered
    ensures forall id, value | id in run.states[j].ops && SucceededWith(run.states[j].ops[id].pc, value) ::
              id in run.states[i].ops && SucceededWith(run.states[i].ops[id].pc, value)
    decreases j - i
  {
    if i < j {
      NothingSucceedsAfterClose(run, i, j - 1);
      StepAfterClose(run.states[j - 1], run.steps[j - 1]);
      hide Apply, Enabled, SucceededWith;
      var s, t, u := run.states[i], run.states[j - 1], run.states[j];
      forall id, value | id in u.ops && SucceededWith(u.ops[id].pc, value)
        ensures id in s.ops && SucceededWith(s.ops[id].pc, value)
      {
        assert id in t.ops && SucceededWith(t.ops[id].pc, value);
      }
    }
  }

  predicate IsLook(step: Step) {
    step.CheckFirst? || step.CheckSecond? || step.DoFinish?
  }

  predicate EndsClosed(pc: OpPc) {
    pc == Unlock(Closed) || pc == Done(Closed)
  }

  lemma LookFindsClosed(s: State, step: Step)
    requires s.closed && Enabled(s, step) && IsLook(step)
    ensures step.id in Apply(s, step).ops && EndsClosed(Apply(s, step).ops[step.id].pc)
  {
    hide ReadChunks, Concat, NonEmpty, FrameOf;
  }

  lemma ClosedOutcomeStays(s: State, step: Step, id: OpId)
    requires Enabled(s, step) && id in s.ops && EndsClosed(s.ops[id].pc)
    ensures id in Apply(s, step).ops && EndsClosed(Apply(s, step).ops[id].pc)
  {
    StepFrame(s, step);
    hide ReadChunks, Concat, NonEmpty, FrameOf;
  }

  /** Every operation that looks at the flag after the flip, by a check or by finish, ends with PeerClosed and stays so. */
  lemma {:induction false} LooksAfterCloseAreMasked(run: Run, i: nat, j: nat, k: nat)
    requires IsRun(run) && i <= j < k < |run.states|
    requires run.states[i].closed && IsLook(run.steps[j])
    ensures run.steps[j].id in run.states[k].ops
    ensures EndsClosed(run.states[k].ops[run.steps[j].id].pc)
    decreases k
  {
    hide Apply, Enabled, EndsClosed, IsLook;
    if k == j + 1 {
      NothingSucceedsAfterClose(run, i, j);
      LookFindsClosed(run.states[j], run.steps[j]);
    } else {
      LooksAfterCloseAreMasked(run, i, j, k - 1);
      ClosedOutcomeStays(run.states[k - 1], run.steps[k - 1], run.steps[j].id);
    }
  }

  /** Where an operation that came to this result can be from then on: with the result still in hand, with the result as
      its outcome, or closed by somebody else. */
  predicate Bears(pc: OpPc, result: Result<OpValue, TransportError>) {
    || pc == Finish(result)
    || EndsClosed(pc)
    || match result
       case Ok(value) => SucceededWith(pc, value)
       case Err(error) => pc == ShutdownBoth(error) || pc == Unlock(FailedWith(error)) || pc == Done(FailedWith(error))
  }

  lemma StepBears(s: State, step: Step, id: OpId, result: Result<OpValue, TransportError>)
    requires Enabled(s, step) && id in s.ops && Bears(s.ops[id].pc, result)
    ensures id in Apply(s, step).ops && Bears(Apply(s, step).ops[id].pc, result)
  {
    StepFrame(s, step);
    hide ReadChunks, Concat, NonEmpty, FrameOf;
  }

  /** An operation never changes its result: it ends with the value or the error it came to, or with PeerClosed. */
  lemma {:induction false} ResultIsKept(run: Run, i: nat, j: nat, id: OpId)
    requires IsRun(run) && i <= j < |run.states| && id in run.states[i].ops && run.states[i].ops[id].pc.Finish?
    ensures id in run.states[j].ops && Bears(run.states[j].ops[id].pc, run.states[i].ops[id].pc.result)
    decreases j - i
  {
    hide Apply, Enabled;
    if i < j {
      ResultIsKept(run, i, j - 1, id);
      hide Bears;
      StepBears(run.states[j - 1], run.steps[j - 1], id, run.states[i].ops[id].pc.result);
    }
  }

  function OwnError(pc: OpPc): TransportError
    requires KeepsOwnError(pc)
  {
    if pc.ShutdownBoth? then pc.error else pc.outcome.error
  }

  lemma StepKeepsOwnError(s: State, step: Step, id: OpId)
    requires Enabled(s, step) && id in Apply(s, step).ops && KeepsOwnError(Apply(s, step).ops[id].pc)
    ensures id in s.ops
    ensures var pc := s.ops[id].pc; var error := OwnError(Apply(s, step).ops[id].pc);
            pc == Finish(Err(error)) || (KeepsOwnError(pc) && OwnError(pc) == error)
  {
    StepFrame(s, step);
    hide ReadChunks, Concat, NonEmpty, FrameOf;
  }

  /** The error an operation keeps is the one it had come to. */
  lemma {:induction false} OwnErrorIsGenuine(run: Run, j: nat, id: OpId) returns (i: nat)
    requires IsRun(run) && j < |run.states| && id in run.states[j].ops && KeepsOwnError(run.states[j].ops[id].pc)
    ensures i < j && id in run.states[i].ops
    ensures run.states[i].ops[id].pc == Finish(Err(OwnError(run.states[j].ops[id].pc)))
    decreases j
  {
    hide Apply, Enabled;
    assert j > 0;
    var s := run.states[j - 1];
    StepKeepsOwnError(s, run.steps[j - 1], id);
    if KeepsOwnError(s.ops[id].pc) {
      i := OwnErrorIsGenuine(run, j - 1, id);
    } else {
      i := j - 1;
    }
  }

  /** One physical shutdown at most, and exactly one failing operation keeps its own error, the one it had come to, once
      the connection is closed. */
  lemma ClosedOnceByOneWinner(run: Run, i: nat)
    requires IsRun(run) && i < |run.states|
    ensures var s := run.states[i];
            && s.shutdowns <= 1
            && (s.shutdowns == 1 ==> s.closed)
            && (s.closed <==> exists id :: id in s.ops && KeepsOwnError(s.ops[id].pc))
            && (forall a, b | a in s.ops && b in s.ops && KeepsOwnError(s.ops[a].pc) && KeepsOwnError(s.ops[b].pc) :: a == b)
            && (forall a | a in s.ops && KeepsOwnError(s.ops[a].pc) :: CameTo(run, i, a, OwnError(s.ops[a].pc)))
  {
    RunKeepsInv(run, i);
    var s := run.states[i];
    if s.closed {
      assert s.winner.value in s.ops && KeepsOwnError(s.ops[s.winner.value].pc);
    }
    forall a | a in s.ops && KeepsOwnError(s.ops[a].pc) ensures CameTo(run, i, a, OwnError(s.ops[a].pc)) {
      var k := OwnErrorIsGenuine(run, i, a);
    }
  }

  /** At some earlier point the operation had this error in hand. */
  ghost predicate CameTo(run: Run, i: nat, id: OpId, error: TransportError)
    requires i < |run.states|
  {
    exists k | 0 <= k < i :: id in run.states[k].ops && run.states[k].ops[id].pc == Finish(Err(error))
  }

  /** A read that failed is followed by no delivery, although where the reader then stands depends on the chunking. */
  lemma NoDeliveryAfterReadError(run: Run, i: nat, j: nat, id: OpId)
    requires IsRun(run) && i <= j < |run.states| && id in run.states[i].ops
    requires run.states[i].ops[id].kind.Recv?
    requires run.states[i].ops[id].pc.Finish? && run.states[i].ops[id].pc.result.Err?
    ensures run.states[j].delivered == run.states[i].delivered
  {
    var k := i;
    while k < j && run.states[k].ops[id].pc == run.states[i].ops[id].pc
      invariant i <= k <= j
      invariant id in run.states[k].ops && run.states[k].ops[id].kind.Recv?
      invariant run.states[k].ops[id].pc == run.states[i].ops[id].pc || run.states[k].closed
      invariant run.states[k].delivered == run.states[i].delivered
    {
      RunKeepsInv(run, k);
      FailingReaderBlocksOthers(run.states[k], run.steps[k], id);
      k := k + 1;
    }
    if k < j {
      NothingSucceedsAfterClose(run, k, j);
    }
  }

  lemma FailingReaderBlocksOthers(s: State, step: Step, id: OpId)
    requires Locks(s) && Enabled(s, step) && id in s.ops && s.ops[id].kind.Recv?
    requires s.ops[id].pc.Finish? && s.ops[id].pc.result.Err?
    ensures var t := Apply(s, step);
            && t.delivered == s.delivered && id in t.ops && t.ops[id].kind.Recv?
            && (t.ops[id].pc == s.ops[id].pc || t.closed)
  {
    hide ReadChunks, Concat, NonEmpty, FrameOf;
    assert s.readLock == Some(id);
    StepFrame(s, step);
  }

  // The write side

  /** Whole frames in lock order, then at most one partial frame. */
  lemma OutputIsWholeFramesThenOnePart(run: Run, i: nat)
    requires IsRun(run) && i < |run.states|
    ensures var s := run.states[i];
            && s.output <= Frames(s.started)
            && (s.started != [] ==> Frames(s.started[..|s.started| - 1]) <= s.output)
            && (forall k | 0 <= k < |s.started| :: |s.started[k]| <= s.max)
            && (!s.sendFailed && WriterPc(s) == None ==> s.output == Frames(s.started))
  {
    RunKeepsInv(run, i);
  }

  lemma StepAfterSendFailure(s: State, step: Step)
    requires Locks(s) && WriteSide(s) && Enabled(s, step) && s.sendFailed
    ensures var t := Apply(s, step); t.sendFailed && t.output == s.output && t.started == s.started
  {
    hide ReadChunks, Concat, NonEmpty, FrameOf, Frames;
  }

  /** After a failed send no byte is written any more, so a partial frame is the last thing on the wire. */
  lemma {:induction false} NoWriteAfterSendFailure(run: Run, i: nat, j: nat)
    requires IsRun(run) && i <= j < |run.states| && run.states[i].sendFailed
    ensures run.states[j].sendFailed
    ensures run.states[j].output == run.states[i].output && run.states[j].started == run.states[i].started
    decreases j - i
  {
    if i < j {
      NoWriteAfterSendFailure(run, i, j - 1);
      RunKeepsInv(run, j - 1);
      StepAfterSendFailure(run.states[j - 1], run.steps[j - 1]);
    }
  }

  // Both ends

  /** However much of an encoded stream has arrived, its complete lines are the first payloads. */
  lemma {:induction false} LinesOfFrames(payloads: seq<Bytes>, stream: Bytes)
    requires forall i | 0 <= i < |payloads| :: EncodedPayload(payloads[i])
    requires stream <= Frames(payloads)
    ensures Lines(stream) <= payloads
    decreases |payloads|
  {
    var i := FirstLf(stream);
    if payloads != [] && i < |stream| {
      var payload, rest := payloads[0], Frames(payloads[1..]);
      var whole := Frames(payloads);
      assert whole == payload + [LF] + rest;
      hide Frames, FirstLf;
      PrefixLine(stream, whole);
      FirstLfIs(whole, |payload|);
      assert stream[..i] == whole[..i] == payload;
      assert stream[i + 1..] <= whole[i + 1..] == rest;
      LinesOfFrames(payloads[1..], stream[i + 1..]);
    }
  }

  /** Two endpoints: what one delivers is, in order, a prefix of what the other started to send. */
  lemma EndToEnd(sender: Run, i: nat, receiver: Run, j: nat)
    requires IsRun(sender) && i < |sender.states| && IsRun(receiver) && j < |receiver.states|
    requires receiver.states[j].peer <= sender.states[i].output
    requires forall k | 0 <= k < |sender.states[i].started| :: EncodedPayload(sender.states[i].started[k])
    ensures receiver.states[j].delivered <= sender.states[i].started
  {
    DeliveredIsAPrefixOfLines(receiver, j);
    OutputIsWholeFramesThenOnePart(sender, i);
    LinesOfFrames(sender.states[i].started, receiver.states[j].peer);
  }

  // Nothing is held back

  lemma {:induction false} LinesOfAllFrames(payloads: seq<Bytes>)
    requires forall i | 0 <= i < |payloads| :: EncodedPayload(payloads[i])
    ensures Lines(Frames(payloads)) == payloads
  {
    if payloads != [] {
      var payload, rest := payloads[0], Frames(payloads[1..]);
      var whole := Frames(payloads);
      LinesOfAllFrames(payloads[1..]);
      hide Frames;
      FirstLfIs(whole, |payload|);
      assert whole[..|payload|] == payload && whole[|payload| + 1..] == rest;
    }
  }

  lemma NoLineLeft(input: Bytes)
    requires LF !in input
    ensures Lines(input) == []
  {
    FirstLfIs(input, |input|);
  }

  /** On an open connection whose reader is idle, everything that was consumed as a line has been delivered: once no
      line feed is left to read, all of the peer's lines have been. */
  lemma IdleReaderHasDelivered(run: Run, i: nat)
    requires IsRun(run) && i < |run.states|
    requires !run.states[i].closed && run.states[i].readLock.None?
    ensures Lines(run.states[i].peer) == run.states[i].delivered + Lines(run.states[i].input)
    ensures LF !in run.states[i].input ==> run.states[i].delivered == Lines(run.states[i].peer)
  {
    RunKeepsInv(run, i);
    hide Lines;
    if LF !in run.states[i].input {
      NoLineLeft(run.states[i].input);
      assert run.states[i].delivered + [] == run.states[i].delivered;
    }
  }

  /** On an open connection whose writer is idle, exactly the started frames have been sent. */
  lemma IdleWriterHasSent(run: Run, i: nat)
    requires IsRun(run) && i < |run.states|
    requires !run.states[i].closed && run.states[i].writeLock.None?
    ensures !run.states[i].sendFailed && run.states[i].output == Frames(run.states[i].started)
  {
    RunKeepsInv(run, i);
    hide Frames;
  }

  /** Two endpoints that are both open and idle, with every byte carried over and read: delivered is what was sent. */
  lemma EndToEndComplete(sender: Run, i: nat, receiver: Run, j: nat)
    requires IsRun(sender) && i < |sender.states| && IsRun(receiver) && j < |receiver.states|
    requires receiver.states[j].peer == sender.states[i].output
    requires forall k | 0 <= k < |sender.states[i].started| :: EncodedPayload(sender.states[i].started[k])
    requires !sender.states[i].closed && sender.states[i].writeLock.None?
    requires !receiver.states[j].closed && receiver.states[j].readLock.None? && receiver.states[j].input == []
    ensures receiver.states[j].delivered == sender.states[i].started
  {
    IdleWriterHasSent(sender, i);
    IdleReaderHasDelivered(receiver, j);
    LinesOfAllFrames(sender.states[i].started);
  }
}
