/** One vsock endpoint: the terminal close and the two guarded operations. */
module Endpoint {
  import opened Codec
  import opened Common

  /** The close flag and the physical shutdown it guards. */
  class TerminalClose {
    var closed: bool
    var shutdownCalls: nat

    ghost predicate Valid()
      reads this
    {
      shutdownCalls == if closed then 1 else 0
    }

    constructor ()
      ensures Valid() && !closed
    {
      closed, shutdownCalls := false, 0;
    }

    method EnsureOpen() returns (result: Result<(), TransportError>)
      ensures result == if closed then Err(PeerClosed) else Ok(())
    {
      result := if closed then Err(PeerClosed) else Ok(());
    }

    /** The first failure closes the connection, shuts it down once and keeps its own error. */
    method Finish<T>(result: Result<T, TransportError>) returns (settled: Result<T, TransportError>)
      requires Valid()
      modifies this
      ensures Valid()
      ensures closed == (old(closed) || result.Err?)
      ensures settled == if old(closed) then Err(PeerClosed) else result
    {
      match result {
        case Ok(value) =>
          var open := EnsureOpen();
          settled := if open.Err? then Err(open.error) else Ok(value);
        case Err(error) =>
          if !closed {
            closed := true;
            shutdownCalls := shutdownCalls + 1;
            settled := Err(error);
          } else {
            settled := Err(PeerClosed);
          }
      }
    }
  }

  /** Reader, writer and codec behind the terminal close. What the operations of other threads can do to one that is
      under way is to close the connection: while it waits for its lock, or while it has it. */
  class EndpointIo {
    const reader: ChunkReader
    const writer: ByteSink
    const terminal: TerminalClose
    const max: usize

    ghost predicate Valid()
      reads this, reader, terminal
    {
      reader.Valid() && terminal.Valid()
    }

    constructor (reader: ChunkReader, writer: ByteSink, max: usize)
      requires reader.Valid()
      ensures Valid() && this.reader == reader && this.writer == writer && this.max == max
      ensures fresh(terminal) && !terminal.closed
    {
      this.reader := reader;
      this.writer := writer;
      this.max := max;
      terminal := new TerminalClose();
    }

    /** An operation of another thread that fails in the meantime. */
    method Interfere(fails: bool)
      requires Valid()
      modifies terminal
      ensures Valid() && terminal.closed == (old(terminal.closed) || fails)
    {
      if fails {
        var failure: Result<(), TransportError> := Err(Io);
        var _ := terminal.Finish(failure);
      }
    }

    /** `decode` is the JSON layer: the frame as a message, or the reason it is none. */
    method Read<M>(decode: Bytes -> Result<M, TransportError>, closedInQueue: bool, closedInside: bool)
      returns (outcome: ReadOutcome<M>)
      requires Valid()
      modifies reader, terminal
      ensures Valid()
      ensures old(terminal.closed) || closedInQueue ==>
                outcome == Returned(Err(PeerClosed)) && terminal.closed && reader.chunks == old(reader.chunks)
      ensures !old(terminal.closed) && !closedInQueue ==>
                var frame := ReadSpec(Concat(old(reader.chunks)), reader.end, max);
                && reader.chunks == ReadChunks(old(reader.chunks), reader.end, max).1
                && (if frame.Panicked? then outcome == Panicked && terminal.closed == closedInside
                    else
                      var message := if frame.result.Err? then Err(frame.result.error) else decode(frame.result.value);
                      && outcome == Returned(if closedInside then Err(PeerClosed) else message)
                      && terminal.closed == (closedInside || message.Err?))
    {
      hide ReadSpec, ReadChunks;
      var open := terminal.EnsureOpen();
      if open.Err? {
        return Returned(Err(open.error));
      }
      Interfere(closedInQueue);
      open := terminal.EnsureOpen();
      if open.Err? {
        return Returned(Err(open.error));
      }
      var frame := ReadFrame(max, reader);
      Interfere(closedInside);
      if frame.Panicked? {
        return Panicked;
      }
      var message := if frame.result.Err? then Err(frame.result.error) else decode(frame.result.value);
      var result := terminal.Finish(message);
      return Returned(result);
    }

    method Write(encoded: Bytes, closedInQueue: bool, closedInside: bool) returns (result: Result<(), TransportError>)
      requires Valid()
      modifies writer, terminal
      ensures Valid()
      ensures old(terminal.closed) || closedInQueue ==>
                result == Err(PeerClosed) && terminal.closed && writer.written == old(writer.written)
      ensures !old(terminal.closed) && !closedInQueue ==>
                && terminal.closed == result.Err?
                && (closedInside ==> result == Err(PeerClosed))
                && (!closedInside ==> (result.Ok? <==> Sent(encoded, old(writer.written))))
                && (!closedInside && |encoded| <= max && result.Err? ==> result.error == Io)
                && (|encoded| > max ==>
                      writer.written == old(writer.written) && (!closedInside ==> result == Err(FrameTooLarge(max))))
                && old(writer.written) <= writer.written <= old(writer.written) + FrameOf(encoded)
    {
      var open := terminal.EnsureOpen();
      if open.Err? {
        return Err(open.error);
      }
      Interfere(closedInQueue);
      open := terminal.EnsureOpen();
      if open.Err? {
        return Err(open.error);
      }
      var written := WriteFrame(max, writer, encoded);
      Interfere(closedInside);
      result := terminal.Finish(written);
    }

    /** The whole frame is out, behind what was written before, and flushed. */
    ghost predicate Sent(encoded: Bytes, before: Bytes)
      reads this, writer
    {
      |encoded| <= max && writer.written == before + FrameOf(encoded) && !writer.flushFails
    }
  }
}
