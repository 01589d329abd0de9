/** The bounded JSON Lines codec: one payload, then one line feed. */
module Codec {
  import opened Common

  type byte = bv8

  const LF: byte := 10
  const CR: byte := 13

  const USIZE_MAX: nat := 0xFFFF_FFFF_FFFF_FFFF
  type usize = n: int | 0 <= n <= USIZE_MAX

  /** The largest allocation there is; a `vec!` of more bytes panics. */
  const ISIZE_MAX: nat := 0x7FFF_FFFF_FFFF_FFFF

  /** Whether a read limit leaves room for the spare byte within one allocation. */
  predicate Allocatable(max: usize) {
    max < ISIZE_MAX
  }

  datatype TransportError =
    | PeerClosed
    | Io
    | Encode
    | MalformedDecode
    | InvalidUtf8
    | FrameTooLarge(maxFrameBytes: usize)
    | EmptyFrame
    | TruncatedFrame
    | WrongDirection

  /** How a read ends: with a result, or, before it has touched the reader, with the panic of an allocation that no
      machine could serve. */
  datatype ReadOutcome<+T> = Returned(result: Result<T, TransportError>) | Panicked

  /** What a fill finds when no bytes are left: an orderly end, or a failing transport. */
  datatype StreamEnd = Eof | Broken

  type Bytes = seq<byte>

  function Concat(chunks: seq<Bytes>): Bytes {
    if chunks == [] then [] else chunks[0] + Concat(chunks[1..])
  }

  ghost predicate NonEmpty(chunks: seq<Bytes>) {
    forall i | 0 <= i < |chunks| :: chunks[i] != []
  }

  /** Index of the first line feed, or the length if there is none. */
  function FirstLf(s: Bytes): (i: nat)
    ensures i <= |s|
  {
    LfFrom(s, 0)
  }

  function LfFrom(s: Bytes, start: nat): (i: nat)
    requires start <= |s|
    ensures start <= i <= |s|
    decreases |s| - start
  {
    if start == |s| || s[start] == LF then start else LfFrom(s, start + 1)
  }

  lemma {:induction false} LfFromIs(s: Bytes, start: nat, i: nat)
    requires start <= |s|
    ensures LfFrom(s, start) == i <==>
              start <= i <= |s| && (forall j | start <= j < i :: s[j] != LF) && (i < |s| ==> s[i] == LF)
    decreases |s| - start
  {
    if start < |s| && s[start] != LF {
      LfFromIs(s, start + 1, i);
    }
  }

  lemma FirstLfIs(s: Bytes, i: nat)
    ensures FirstLf(s) == i <==>
              i <= |s| && (forall j | 0 <= j < i :: s[j] != LF) && (i < |s| ==> s[i] == LF)
  {
    LfFromIs(s, 0, i);
  }

  function StripCr(line: Bytes): Bytes {
    if line != [] && line[|line| - 1] == CR then line[..|line| - 1] else line
  }

  // The chunk-free specification

  /** What a complete line (its bytes before the line feed) is read as. */
  function LineResult(line: Bytes, max: usize): Result<Bytes, TransportError> {
    var payload := StripCr(line);
    if |payload| > max then Err(FrameTooLarge(max))
    else if payload == [] then Err(EmptyFrame)
    else Ok(payload)
  }

  /** Bytes without a line feed that no continuation can turn into an acceptable line. */
  predicate Overlong(s: Bytes, max: usize) {
    |s| > max + 1 || (|s| == max + 1 && s[max] != CR)
  }

  /** One read of a buffer that could be allocated, as a function of the byte stream alone. */
  function LoopSpec(stream: Bytes, end: StreamEnd, max: usize): Result<Bytes, TransportError> {
    var i := FirstLf(stream);
    if i < |stream| then LineResult(stream[..i], max)
    else if Overlong(stream, max) then Err(FrameTooLarge(max))
    else if end.Broken? then Err(Io)
    else if stream == [] then Err(PeerClosed)
    else Err(TruncatedFrame)
  }

  /** One read with any limit. */
  function ReadSpec(stream: Bytes, end: StreamEnd, max: usize): ReadOutcome<Bytes> {
    if max == USIZE_MAX then Returned(Err(FrameTooLarge(max)))
    else if !Allocatable(max) then Panicked
    else Returned(LoopSpec(stream, end, max))
  }

  // What the results mean

  /** The stream starts with this payload, its line feed, and possibly a carriage return before it. */
  ghost predicate StartsWithLine(stream: Bytes, payload: Bytes) {
    || (payload + [CR, LF] <= stream)
    || (payload + [LF] <= stream && (payload == [] || payload[|payload| - 1] != CR))
  }

  lemma LineAtFront(stream: Bytes, payload: Bytes)
    requires LF !in payload
    ensures StartsWithLine(stream, payload) <==> FirstLf(stream) < |stream| && StripCr(stream[..FirstLf(stream)]) == payload
  {
    var i := FirstLf(stream);
    FirstLfIs(stream, i);
    if payload + [CR, LF] <= stream {
      FirstLfIs(stream, |payload| + 1);
      assert stream[..i] == payload + [CR];
    } else if payload + [LF] <= stream {
      FirstLfIs(stream, |payload|);
      assert stream[..i] == payload;
    }
    assert i < |stream| ==> stream[..i + 1] == stream[..i] + [LF];
    assert StripCr(stream[..i]) == payload ==> stream[..i] == payload || stream[..i] == payload + [CR];
  }

  /** A frame is read exactly if it is the first line of the stream, is not empty, and does not exceed the limit. */
  lemma FrameMeansLine(stream: Bytes, end: StreamEnd, max: usize, payload: Bytes)
    ensures ReadSpec(stream, end, max) == Returned(Ok(payload)) <==>
            Allocatable(max) && payload != [] && |payload| <= max && LF !in payload && StartsWithLine(stream, payload)
  {
    var i := FirstLf(stream);
    FirstLfIs(stream, i);
    assert i < |stream| ==> LF !in StripCr(stream[..i]);
    if LF !in payload {
      LineAtFront(stream, payload);
    }
  }

  /** An empty frame is reported exactly for a stream that starts with a blank line. */
  lemma EmptyMeansBlank(stream: Bytes, end: StreamEnd, max: usize)
    ensures ReadSpec(stream, end, max) == Returned(Err(EmptyFrame)) <==>
            Allocatable(max) && ([LF] <= stream || [CR, LF] <= stream)
  {
    LineAtFront(stream, []);
    assert [] + [CR, LF] == [CR, LF] && [] + [LF] == [LF];
  }

  /** The end of the stream is reported exactly where no line feed is left and nothing is too long: as the peer's if it
      comes before the first byte, as a truncated frame after it, and as a failure of the transport if it is one. */
  lemma EndMeansNoLine(stream: Bytes, end: StreamEnd, max: usize)
    ensures var outcome := ReadSpec(stream, end, max);
            var waiting := Allocatable(max) && LF !in stream && !Overlong(stream, max);
            && (outcome == Returned(Err(PeerClosed)) <==> waiting && end.Eof? && stream == [])
            && (outcome == Returned(Err(TruncatedFrame)) <==> waiting && end.Eof? && stream != [])
            && (outcome == Returned(Err(Io)) <==> waiting && end.Broken?)
  {
    FirstLfIs(stream, FirstLf(stream));
  }

  /** Bytes without a line feed are too many exactly if whatever follows cannot make them an acceptable line. */
  lemma OverlongIsHopeless(s: Bytes, max: usize)
    requires LF !in s
    ensures Overlong(s, max) <==> forall more: Bytes | LF !in more :: |StripCr(s + more)| > max
  {
    if Overlong(s, max) {
      forall more: Bytes | LF !in more ensures |StripCr(s + more)| > max {
        assert more == [] ==> s + more == s;
        assert (s + more)[..|s|] == s;
      }
    } else {
      assert s + [] == s && LF !in [];
      assert |StripCr(s + [])| <= max;
    }
  }

  // The buffered reader and the frame buffer

  /** A buffered reader: `chunks` is what the next fills will show, the first one being what is buffered now. */
  class ChunkReader {
    var chunks: seq<Bytes>
    const end: StreamEnd

    ghost predicate Valid()
      reads this
    {
      NonEmpty(chunks)
    }

    constructor (chunks: seq<Bytes>, end: StreamEnd)
      requires NonEmpty(chunks)
      ensures Valid() && this.chunks == chunks && this.end == end
    {
      this.chunks := chunks;
      this.end := end;
    }

    method FillBuf() returns (available: Result<Bytes, TransportError>)
      requires Valid()
      ensures chunks != [] ==> chunks[0] != [] && available == Ok(chunks[0])
      ensures chunks == [] ==> available == if end.Eof? then Ok([]) else Err(Io)
    {
      if chunks != [] {
        available := Ok(chunks[0]);
      } else if end.Eof? {
        available := Ok([]);
      } else {
        available := Err(Io);
      }
    }

    method Consume(n: nat)
      requires Valid() && chunks != [] && n <= |chunks[0]|
      modifies this
      ensures Valid()
      ensures chunks == Consumed(old(chunks), n)
    {
      ConsumedDrops(chunks, n);
      chunks := Consumed(chunks, n);
    }
  }

  function Consumed(chunks: seq<Bytes>, n: nat): (rest: seq<Bytes>)
    requires chunks != [] && n <= |chunks[0]|
    ensures n == |chunks[0]| ==> |rest| == |chunks| - 1
  {
    if n == |chunks[0]| then chunks[1..] else [chunks[0][n..]] + chunks[1..]
  }

  lemma DropAppend(a: Bytes, b: Bytes, n: nat)
    requires n <= |a|
    ensures (a + b)[n..] == a[n..] + b
  {}

  lemma TakeAppend(a: Bytes, b: Bytes, n: nat)
    requires n <= |b|
    ensures (a + b)[..|a| + n] == a + b[..n]
  {}

  lemma ConsumedDrops(chunks: seq<Bytes>, n: nat)
    requires NonEmpty(chunks) && chunks != [] && n <= |chunks[0]|
    ensures NonEmpty(Consumed(chunks, n))
    ensures n <= |Concat(chunks)| && Concat(Consumed(chunks, n)) == Concat(chunks)[n..]
  {
    var tail := chunks[1..];
    DropAppend(chunks[0], Concat(tail), n);
    if n < |chunks[0]| {
      var rest := Consumed(chunks, n);
      assert rest[0] == chunks[0][n..] && rest[1..] == tail;
    }
  }

  /** A fixed buffer and how much of it is used; an append past its end would panic. */
  class OwnedFrame {
    const storage: array<byte>
    var len: nat
    ghost var Contents: Bytes

    ghost predicate Valid()
      reads this, storage
    {
      len <= storage.Length && Contents == storage[..len]
    }

    constructor (storageLen: nat)
      requires storageLen <= ISIZE_MAX
      ensures Valid() && fresh(storage) && storage.Length == storageLen && Contents == []
    {
      storage := new byte[storageLen](_ => 0);
      len := 0;
      Contents := [];
    }

    method Append(bytes: Bytes)
      requires Valid() && len + |bytes| <= storage.Length
      modifies this, storage
      ensures Valid() && Contents == old(Contents) + bytes && len == old(len) + |bytes|
    {
      forall i | 0 <= i < |bytes| {
        storage[len + i] := bytes[i];
      }
      len := len + |bytes|;
      Contents := Contents + bytes;
    }

    method EndsInCr() returns (yes: bool)
      requires Valid()
      ensures yes == (Contents != [] && Contents[|Contents| - 1] == CR)
    {
      yes := 0 < len && storage[len - 1] == CR;
    }

    method StripTrailingCr()
      requires Valid()
      modifies this
      ensures Valid() && Contents == StripCr(old(Contents)) && len == |Contents|
    {
      if 0 < len && storage[len - 1] == CR {
        len := len - 1;
      }
      Contents := StripCr(Contents);
    }

    method AsSlice() returns (bytes: Bytes)
      requires Valid()
      ensures bytes == Contents
    {
      bytes := storage[..len];
    }
  }

  // read_frame

  /** The reading loop as a function: the result, and the chunks it leaves behind. */
  function Scan(frame: Bytes, chunks: seq<Bytes>, end: StreamEnd, max: usize): (Result<Bytes, TransportError>, seq<Bytes>)
    decreases |chunks|
  {
    if chunks == [] then
      (if end.Broken? then Err(Io) else if frame == [] then Err(PeerClosed) else Err(TruncatedFrame), [])
    else
      var available := chunks[0];
      var i := FirstLf(available);
      if i < |available| then
        (if |frame| + i > max + 1 then Err(FrameTooLarge(max)) else LineResult(frame + available[..i], max),
         Consumed(chunks, i + 1))
      else if |available| > max + 1 - |frame| then
        (Err(FrameTooLarge(max)), chunks)
      else if Overlong(frame + available, max) then
        (Err(FrameTooLarge(max)), chunks[1..])
      else
        Scan(frame + available, chunks[1..], end, max)
  }

  /** One call of read_frame on a reader that holds these chunks. */
  function ReadChunks(chunks: seq<Bytes>, end: StreamEnd, max: usize): (ReadOutcome<Bytes>, seq<Bytes>) {
    if max == USIZE_MAX then (Returned(Err(FrameTooLarge(max))), chunks)
    else if !Allocatable(max) then (Panicked, chunks)
    else
      var (result, rest) := Scan([], chunks, end, max);
      (Returned(result), rest)
  }

  lemma ScanAtLine(frame: Bytes, chunks: seq<Bytes>, end: StreamEnd, max: usize)
    requires chunks != [] && FirstLf(chunks[0]) < |chunks[0]|
    ensures var i := FirstLf(chunks[0]);
            Scan(frame, chunks, end, max) ==
              (if |frame| + i > max + 1 then Err(FrameTooLarge(max)) else LineResult(frame + chunks[0][..i], max),
               Consumed(chunks, i + 1))
  {}

  lemma ScanWithoutLine(frame: Bytes, chunks: seq<Bytes>, end: StreamEnd, max: usize)
    requires chunks != [] && FirstLf(chunks[0]) == |chunks[0]|
    ensures Scan(frame, chunks, end, max) ==
              if |chunks[0]| > max + 1 - |frame| then (Err(FrameTooLarge(max)), chunks)
              else if Overlong(frame + chunks[0], max) then (Err(FrameTooLarge(max)), Consumed(chunks, |chunks[0]|))
              else Scan(frame + chunks[0], Consumed(chunks, |chunks[0]|), end, max)
  {}

  lemma ScanAtEnd(frame: Bytes, end: StreamEnd, max: usize)
    ensures Scan(frame, [], end, max) ==
              (if end.Broken? then Err(Io) else if frame == [] then Err(PeerClosed) else Err(TruncatedFrame), [])
  {}

  /** The branch of the loop that has the line feed in sight. */
  method TakeLine(max: usize, frame: OwnedFrame, reader: ChunkReader, newlineIndex: nat) returns (result: Result<Bytes, TransportError>)
    requires max < USIZE_MAX && frame.Valid() && frame.storage.Length == max + 1 && frame.len == |frame.Contents|
    requires reader.Valid() && reader.chunks != [] && newlineIndex < |reader.chunks[0]|
    modifies frame, frame.storage, reader
    ensures reader.Valid() && reader.chunks == Consumed(old(reader.chunks), newlineIndex + 1)
    ensures result ==
              if old(|frame.Contents|) + newlineIndex > max + 1 then Err(FrameTooLarge(max))
              else LineResult(old(frame.Contents) + old(reader.chunks)[0][..newlineIndex], max)
  {
    hide Consumed;
    var ownedLimit := max + 1;
    var available := reader.chunks[0];
    var totalBeforeNewline := frame.len + newlineIndex;
    var room := ownedLimit - frame.len;
    var copyLen := if newlineIndex < room then newlineIndex else room;
    frame.Append(available[..copyLen]);
    reader.Consume(newlineIndex + 1);
    if totalBeforeNewline > ownedLimit {
      return Err(FrameTooLarge(max));
    }
    frame.StripTrailingCr();
    if frame.len > max {
      return Err(FrameTooLarge(max));
    }
    if frame.len == 0 {
      return Err(EmptyFrame);
    }
    var bytes := frame.AsSlice();
    return Ok(bytes);
  }

  /** The branch that takes everything buffered. */
  method TakeChunk(max: usize, frame: OwnedFrame, reader: ChunkReader) returns (tooLarge: bool)
    requires max < USIZE_MAX && frame.Valid() && frame.storage.Length == max + 1 && frame.len == |frame.Contents|
    requires reader.Valid() && reader.chunks != []
    modifies frame, frame.storage, reader
    ensures reader.Valid() && frame.Valid() && frame.len == |frame.Contents|
    ensures var available := old(reader.chunks)[0]; var taken := old(frame.Contents) + available;
            if |available| > max + 1 - old(|frame.Contents|) then
              tooLarge && reader.chunks == old(reader.chunks)
            else
              && tooLarge == Overlong(taken, max)
              && frame.Contents == taken
              && reader.chunks == Consumed(old(reader.chunks), |available|)
  {
    hide Consumed;
    var available := reader.chunks[0];
    var remaining := max + 1 - frame.len;
    if |available| > remaining {
      return true;
    }
    frame.Append(available);
    reader.Consume(|available|);
    var endsInCr := frame.EndsInCr();
    tooLarge := frame.len == max + 1 && !endsInCr;
  }

  method ReadFrame(max: usize, reader: ChunkReader) returns (outcome: ReadOutcome<Bytes>)
    requires reader.Valid()
    modifies reader
    ensures reader.Valid()
    ensures (outcome, reader.chunks) == ReadChunks(old(reader.chunks), reader.end, max)
    ensures outcome == ReadSpec(Concat(old(reader.chunks)), reader.end, max)
  {
    if max == USIZE_MAX {
      return Returned(Err(FrameTooLarge(max)));
    }
    if max + 1 > ISIZE_MAX {
      return Panicked;
    }
    var result := ReadLoop(max, reader);
    ReadMatchesSpec(old(reader.chunks), reader.end, max);
    return Returned(result);
  }

  method ReadLoop(max: usize, reader: ChunkReader) returns (result: Result<Bytes, TransportError>)
    requires reader.Valid() && Allocatable(max)
    modifies reader
    ensures reader.Valid()
    ensures (result, reader.chunks) == Scan([], old(reader.chunks), reader.end, max)
  {
    hide Scan, FirstLf, Consumed, NonEmpty, LineResult, Overlong;
    ghost var expected := Scan([], reader.chunks, reader.end, max);
    var frame := new OwnedFrame(max + 1);
    while true
      invariant reader.Valid() && frame.Valid() && frame.storage.Length == max + 1
      invariant frame.len == |frame.Contents|
      invariant fresh(frame) && fresh(frame.storage)
      invariant Scan(frame.Contents, reader.chunks, reader.end, max) == expected
      decreases |reader.chunks|
    {
      ghost var content, chunks := frame.Contents, reader.chunks;
      var filled := reader.FillBuf();
      if filled.Err? {
        ScanAtEnd(content, reader.end, max);
        return Err(filled.error);
      }
      var available := filled.value;
      if available == [] {
        ScanAtEnd(content, reader.end, max);
        return if frame.len == 0 then Err(PeerClosed) else Err(TruncatedFrame);
      }
      var newlineIndex := FirstLf(available);
      if newlineIndex < |available| {
        ScanAtLine(content, chunks, reader.end, max);
        result := TakeLine(max, frame, reader, newlineIndex);
        return;
      }
      ScanWithoutLine(content, chunks, reader.end, max);
      var tooLarge := TakeChunk(max, frame, reader);
      if tooLarge {
        return Err(FrameTooLarge(max));
      }
    }
  }

  // Independence of the chunking

  lemma FirstLfInAppend(a: Bytes, b: Bytes)
    requires LF !in a
    ensures FirstLf(a + b) == |a| + FirstLf(b)
  {
    FirstLfIs(b, FirstLf(b));
    FirstLfIs(a + b, |a| + FirstLf(b));
  }

  /** What a read leaves behind: a suffix of the stream, never from beyond the first line feed, and exactly from
      behind it once a line was taken. */
  ghost predicate StopsAtLine(stream: Bytes, result: Result<Bytes, TransportError>, rest: seq<Bytes>) {
    && NonEmpty(rest)
    && |Concat(rest)| <= |stream|
    && Concat(rest) == stream[|stream| - |Concat(rest)|..]
    && |stream| - |Concat(rest)| <= FirstLf(stream) + 1
    && (result.Ok? || result.error.EmptyFrame? ==>
          FirstLf(stream) < |stream| && Concat(rest) == stream[FirstLf(stream) + 1..])
  }

  /** From a frame that is still viable, the loop ends as the specification says, and stops at the right place. */
  lemma {:induction false} ScanMatchesSpec(frame: Bytes, chunks: seq<Bytes>, end: StreamEnd, max: usize)
    requires NonEmpty(chunks) && LF !in frame && max < USIZE_MAX && !Overlong(frame, max)
    ensures var (result, rest) := Scan(frame, chunks, end, max);
            result == LoopSpec(frame + Concat(chunks), end, max) && StopsAtLine(Concat(chunks), result, rest)
    decreases |chunks|
  {
    var stream := Concat(chunks);
    if chunks == [] {
      assert frame + stream == frame;
      FirstLfIs(frame, |frame|);
    } else {
      var available := chunks[0];
      var i := FirstLf(available);
      if i < |available| {
        ScanTakesLine(frame, chunks, end, max);
      } else {
        var tail := Concat(chunks[1..]);
        FirstLfIs(available, i);
        assert available == available[..i];
        FirstLfInAppend(available, tail);
        assert frame + stream == (frame + available) + tail;
        if |available| > max + 1 - |frame| || Overlong(frame + available, max) {
          OverlongStaysTooLarge(frame + available, tail, end, max);
        } else {
          ScanMatchesSpec(frame + available, chunks[1..], end, max);
          var (result, rest) := Scan(frame + available, chunks[1..], end, max);
          SkippedChunk(available, tail, result, rest);
        }
      }
    }
  }

  lemma SkippedChunk(available: Bytes, tail: Bytes, result: Result<Bytes, TransportError>, rest: seq<Bytes>)
    requires LF !in available && StopsAtLine(tail, result, rest)
    ensures StopsAtLine(available + tail, result, rest)
  {
    FirstLfInAppend(available, tail);
    assert forall k | |available| <= k <= |available + tail| :: (available + tail)[k..] == tail[k - |available|..];
  }

  /** The frame so far and the line completed by the stream are read as one line. */
  lemma CompletesLine(frame: Bytes, stream: Bytes, i: nat, end: StreamEnd, max: usize)
    requires LF !in frame && max < USIZE_MAX && FirstLf(stream) == i < |stream|
    ensures LoopSpec(frame + stream, end, max) ==
              if |frame| + i > max + 1 then Err(FrameTooLarge(max)) else LineResult(frame + stream[..i], max)
  {
    FirstLfInAppend(frame, stream);
    var line := frame + stream[..i];
    assert (frame + stream)[..|frame| + i] == line by {
      TakeAppend(frame, stream, i);
    }
    LongLine(line, max);
    hide FirstLf, LineResult, Overlong;
    assert LoopSpec(frame + stream, end, max) == LineResult(line, max);
  }

  lemma LongLine(line: Bytes, max: usize)
    ensures |line| > max + 1 ==> LineResult(line, max) == Err(FrameTooLarge(max))
  {}

  lemma ScanTakesLine(frame: Bytes, chunks: seq<Bytes>, end: StreamEnd, max: usize)
    requires NonEmpty(chunks) && LF !in frame && max < USIZE_MAX
    requires chunks != [] && FirstLf(chunks[0]) < |chunks[0]|
    ensures var (result, rest) := Scan(frame, chunks, end, max);
            result == LoopSpec(frame + Concat(chunks), end, max) && StopsAtLine(Concat(chunks), result, rest)
  {
    hide Scan, LoopSpec, LineResult, Consumed, Overlong;
    var i := FirstLf(chunks[0]);
    var stream := Concat(chunks);
    ConsumedDrops(chunks, i + 1);
    FirstLfIs(chunks[0], i);
    assert i < |stream| && stream[..i] == chunks[0][..i] && stream[i] == LF;
    FirstLfIs(stream, i);
    CompletesLine(frame, stream, i, end, max);
    ScanAtLine(frame, chunks, end, max);
  }

  /** Whatever follows, bytes that are already overlong are read as a frame that is too large. */
  lemma OverlongStaysTooLarge(head: Bytes, tail: Bytes, end: StreamEnd, max: usize)
    requires LF !in head && Overlong(head, max)
    ensures LoopSpec(head + tail, end, max) == Err(FrameTooLarge(max))
  {
    FirstLfInAppend(head, tail);
    var i := FirstLf(head + tail);
    if i < |head + tail| {
      var line := (head + tail)[..i];
      assert |line| == max + 1 ==> line[max] == head[max];
    }
  }

  /** read_frame depends on the bytes alone: any two divisions of a stream give the same outcome. */
  lemma ReadMatchesSpec(chunks: seq<Bytes>, end: StreamEnd, max: usize)
    requires NonEmpty(chunks)
    ensures var (outcome, rest) := ReadChunks(chunks, end, max);
            && outcome == ReadSpec(Concat(chunks), end, max)
            && (if outcome.Returned? then StopsAtLine(Concat(chunks), outcome.result, rest) else rest == chunks)
  {
    if Allocatable(max) {
      ScanMatchesSpec([], chunks, end, max);
      assert [] + Concat(chunks) == Concat(chunks);
    }
  }

  // Where the reader stands afterwards

  /** What is left of a stream once its first line, or all of it, is consumed. */
  function AfterLine(stream: Bytes): Bytes {
    if FirstLf(stream) < |stream| then stream[FirstLf(stream) + 1..] else []
  }

  /** A read that does not end with a frame that is too large consumes its line, or the whole stream. So does a read
      of a stream that just fills the buffer. */
  lemma {:induction false} ScanConsumesLine(frame: Bytes, chunks: seq<Bytes>, end: StreamEnd, max: usize)
    requires NonEmpty(chunks) && |frame| <= max + 1
    requires Scan(frame, chunks, end, max).0 != Err(FrameTooLarge(max)) || |frame| + |Concat(chunks)| == max + 1
    ensures Concat(Scan(frame, chunks, end, max).1) == AfterLine(Concat(chunks))
    decreases |chunks|
  {
    var stream := Concat(chunks);
    if chunks == [] {
      ScanAtEnd(frame, end, max);
    } else {
      var available, tail := chunks[0], Concat(chunks[1..]);
      var i := FirstLf(available);
      FirstLfIs(available, i);
      if i < |available| {
        ScanAtLine(frame, chunks, end, max);
        hide Scan, LineResult, Overlong;
        ConsumedDrops(chunks, i + 1);
        FirstLfIs(stream, i);
      } else {
        ScanWithoutLine(frame, chunks, end, max);
        assert Consumed(chunks, |available|) == chunks[1..];
        AfterLineOfTail(available, tail);
        hide Scan, LineResult, FirstLf, AfterLine, Consumed;
        if |available| <= max + 1 - |frame| && !Overlong(frame + available, max) {
          ScanConsumesLine(frame + available, chunks[1..], end, max);
        } else if tail == [] {
          AfterNothing();
        }
      }
    }
  }

  lemma AfterNothing()
    ensures AfterLine([]) == []
  {}

  lemma AfterLineOfTail(a: Bytes, b: Bytes)
    requires LF !in a
    ensures AfterLine(a + b) == AfterLine(b)
  {
    FirstLfInAppend(a, b);
    DropAppendBeyond(a, b);
  }

  lemma DropAppendBeyond(a: Bytes, b: Bytes)
    ensures forall k | |a| <= k <= |a + b| :: (a + b)[k..] == b[k - |a|..]
  {}

  /** One call of read_frame leaves the reader at the same place however the stream is divided. */
  ghost predicate SamePosition(stream: Bytes, end: StreamEnd, max: usize) {
    forall a, b | NonEmpty(a) && NonEmpty(b) && Concat(a) == stream && Concat(b) == stream ::
      Concat(ReadChunks(a, end, max).1) == Concat(ReadChunks(b, end, max).1)
  }

  lemma ConcatOne(a: Bytes)
    ensures Concat([a]) == a
  {
    assert [a][1..] == [];
  }

  lemma ConcatTwo(a: Bytes, b: Bytes)
    ensures Concat([a, b]) == a + b && [a, b][1..] == [b]
  {
    assert [a, b][1..] == [b];
    ConcatOne(b);
  }

  /** A line that is too long: taken in one piece it is consumed, cut before its line feed it is not. */
  lemma LongLineMovesReader(stream: Bytes, end: StreamEnd, max: usize)
    requires Allocatable(max) && FirstLf(stream) < |stream|
    requires LineResult(stream[..FirstLf(stream)], max) == Err(FrameTooLarge(max))
    ensures !SamePosition(stream, end, max)
  {
    var i := FirstLf(stream);
    FirstLfIs(stream, i);
    var head, tail := stream[..i], stream[i..];
    assert head + tail == stream;
    FirstLfIs(head, i);
    ConcatOne(stream);
    ConcatTwo(head, tail);
    ConcatOne(tail);
    assert Overlong(head, max);
    var whole, cut := [stream], [head, tail];
    ConsumedDrops(whole, i + 1);
    assert [] + head == head;
    assert NonEmpty(whole) && NonEmpty(cut) && Concat(whole) == Concat(cut) == stream;
    ScanAtLine([], whole, end, max);
    ScanWithoutLine([], cut, end, max);
    hide Scan, Concat;
    assert |Concat(ReadChunks(whole, end, max).1)| == |stream| - i - 1;
    assert |Concat(ReadChunks(cut, end, max).1)| >= |stream| - i;
  }

  /** Bytes without a line feed that overflow the buffer: as one chunk they are left alone, cut where the buffer is
      full the first part of them is consumed. */
  lemma LongChunkMovesReader(stream: Bytes, end: StreamEnd, max: usize)
    requires Allocatable(max) && FirstLf(stream) == |stream| && |stream| > max + 1
    ensures !SamePosition(stream, end, max)
  {
    FirstLfIs(stream, |stream|);
    var head, tail := stream[..max + 1], stream[max + 1..];
    assert head + tail == stream;
    FirstLfIs(head, |head|);
    FirstLfIs(tail, |tail|);
    ConcatOne(stream);
    ConcatTwo(head, tail);
    ConcatOne(tail);
    var whole, cut := [stream], [head, tail];
    assert [] + head == head;
    assert NonEmpty(whole) && NonEmpty(cut) && Concat(whole) == Concat(cut) == stream;
    ScanWithoutLine([], whole, end, max);
    ScanWithoutLine([], cut, end, max);
    ScanWithoutLine(head, [tail], end, max);
    assert Consumed(cut, |head|) == [tail];
    hide Scan, Concat, Consumed;
    assert ReadChunks(whole, end, max).1 == whole;
    assert ReadChunks(cut, end, max).1 == [tail];
  }

  /** Where one call of read_frame leaves the reader depends on how the bytes arrived exactly when it reports a frame
      that is too large, except for a stream that just fills the buffer and for the limit that rejects every frame
      unread. */
  lemma PositionDependsOnChunking(stream: Bytes, end: StreamEnd, max: usize)
    ensures SamePosition(stream, end, max) <==>
            || ReadSpec(stream, end, max) != Returned(Err(FrameTooLarge(max)))
            || |stream| == max + 1
            || max == USIZE_MAX
  {
    if !Allocatable(max) {
    } else if LoopSpec(stream, end, max) != Err(FrameTooLarge(max)) || |stream| == max + 1 {
      forall a | NonEmpty(a) && Concat(a) == stream
        ensures Concat(ReadChunks(a, end, max).1) == AfterLine(stream)
      {
        ReadMatchesSpec(a, end, max);
        ScanConsumesLine([], a, end, max);
      }
    } else if FirstLf(stream) < |stream| {
      LongLineMovesReader(stream, end, max);
    } else {
      LongChunkMovesReader(stream, end, max);
    }
  }

  /** A stream that starts with a line too long for the limit, or with too many bytes for any line. */
  predicate TooLong(stream: Bytes, max: usize) {
    var i := FirstLf(stream);
    if i < |stream| then |StripCr(stream[..i])| > max else Overlong(stream, max)
  }

  /** The same condition in terms of the bytes alone. */
  lemma PositionDependsOnBytes(stream: Bytes, end: StreamEnd, max: usize)
    ensures SamePosition(stream, end, max) <==> !Allocatable(max) || !TooLong(stream, max) || |stream| == max + 1
  {
    PositionDependsOnChunking(stream, end, max);
    hide SamePosition, FirstLf;
  }

  /** So a reader that went on after a FrameTooLarge would invent frames: of these two divisions of the same stream
      one goes on to yield the frame "a", which nobody wrote. */
  lemma TooLargeDesynchronises()
    ensures var whole: seq<Bytes> := [[97, 97, 97, LF, 98, LF]]; var split: seq<Bytes> := [[97, 97], [97, LF, 98, LF]];
            && Concat(whole) == Concat(split)
            && ReadChunks(whole, Eof, 1) == (Returned(Err(FrameTooLarge(1))), [[98, LF]])
            && ReadChunks(split, Eof, 1) == (Returned(Err(FrameTooLarge(1))), [[97, LF, 98, LF]])
            && ReadChunks([[98, LF]], Eof, 1).0 == Returned(Ok([98]))
            && ReadChunks([[97, LF, 98, LF]], Eof, 1).0 == Returned(Ok([97]))
  {
    var line: Bytes := [97, 97, 97, LF, 98, LF];
    var start: Bytes := [97, 97];
    var shifted: Bytes := [97, LF, 98, LF];
    FirstLfIs(line, 3);
    FirstLfIs(start, 2);
    FirstLfIs(shifted, 1);
    FirstLfIs([98, LF], 1);
    assert [start, shifted][1..] == [shifted];
    assert Concat([shifted]) == shifted && Concat([line]) == line;
    assert start + shifted == line;
    assert line[4..] == [98, LF] && [line][1..] == [];
    assert [] + start == start;
    assert ReadChunks([start, shifted], Eof, 1) == (Returned(Err(FrameTooLarge(1))), [shifted]);
    assert [] + line[..3] == [97, 97, 97];
    assert [line[4..]] + [line][1..] == [[98, LF]];
    assert ReadChunks([line], Eof, 1) == (Returned(Err(FrameTooLarge(1))), [[98, LF]]);
    assert [] + shifted[..1] == [97];
    assert [] + [98, LF][..1] == [98];
  }

  // write_frame

  /** A writer that takes `room` more bytes and then fails, or never fails, and whose flush may fail. */
  class ByteSink {
    var written: Bytes
    var room: nat
    const unlimited: bool
    const flushFails: bool

    constructor (room: nat, unlimited: bool, flushFails: bool)
      ensures written == [] && this.room == room && this.unlimited == unlimited && this.flushFails == flushFails
    {
      written := [];
      this.room := room;
      this.unlimited := unlimited;
      this.flushFails := flushFails;
    }

    predicate Takes(n: nat)
      reads this
    {
      unlimited || n <= room
    }

    method WriteAll(bytes: Bytes) returns (ok: bool)
      modifies this
      ensures ok == old(Takes(|bytes|))
      ensures written == old(written) + (if ok then bytes else bytes[..old(room)])
      ensures !unlimited ==> room == if ok then old(room) - |bytes| else 0
    {
      if unlimited {
        written := written + bytes;
        ok := true;
      } else if |bytes| <= room {
        written, room := written + bytes, room - |bytes|;
        ok := true;
      } else {
        written, room := written + bytes[..room], 0;
        ok := false;
      }
    }
  }

  function FrameOf(payload: Bytes): Bytes {
    payload + [LF]
  }

  method WriteFrame(max: usize, sink: ByteSink, encoded: Bytes) returns (result: Result<(), TransportError>)
    modifies sink
    ensures |encoded| > max ==> result == Err(FrameTooLarge(max)) && sink.written == old(sink.written)
    ensures |encoded| <= max ==>
              && (result.Ok? <==> old(sink.Takes(|FrameOf(encoded)|)) && !sink.flushFails)
              && (result.Err? ==> result.error == Io)
              && sink.written == old(sink.written) +
                   (if old(sink.Takes(|FrameOf(encoded)|)) then FrameOf(encoded) else FrameOf(encoded)[..old(sink.room)])
  {
    if |encoded| > max {
      return Err(FrameTooLarge(max));
    }
    var ok := sink.WriteAll(encoded);
    if !ok {
      assert FrameOf(encoded)[..old(sink.room)] == encoded[..old(sink.room)];
      return Err(Io);
    }
    ok := sink.WriteAll([LF]);
    if !ok {
      assert FrameOf(encoded)[..old(sink.room)] == encoded;
      return Err(Io);
    }
    if sink.flushFails {
      return Err(Io);
    }
    return Ok(());
  }

  // Round trip

  /** What a JSON encoder produces: something, without raw control characters at the places that matter. */
  predicate EncodedPayload(payload: Bytes) {
    payload != [] && LF !in payload && payload[|payload| - 1] != CR
  }

  function Frames(payloads: seq<Bytes>): Bytes {
    if payloads == [] then [] else FrameOf(payloads[0]) + Frames(payloads[1..])
  }

  /** n successive reads. */
  function ReadMany(chunks: seq<Bytes>, end: StreamEnd, max: usize, n: nat): seq<ReadOutcome<Bytes>>
    decreases n
  {
    if n == 0 then []
    else
      var (outcome, rest) := ReadChunks(chunks, end, max);
      [outcome] + ReadMany(rest, end, max, n - 1)
  }

  /** The payloads in order, then the end of the stream. */
  function AllThenClosed(payloads: seq<Bytes>): (outcomes: seq<ReadOutcome<Bytes>>)
    ensures |outcomes| == |payloads| + 1
    ensures forall i | 0 <= i < |payloads| :: outcomes[i] == Returned(Ok(payloads[i]))
    ensures outcomes[|payloads|] == Returned(Err(PeerClosed))
  {
    if payloads == [] then [Returned(Err(PeerClosed))]
    else [Returned(Ok(payloads[0]))] + AllThenClosed(payloads[1..])
  }

  ghost predicate Writable(payload: Bytes, max: usize) {
    EncodedPayload(payload) && |payload| <= max
  }

  /** Reading undoes writing under any chunking, exactly when a buffer for the limit and its spare byte can be had. */
  lemma RoundTrip(payloads: seq<Bytes>, chunks: seq<Bytes>, max: usize)
    requires forall i | 0 <= i < |payloads| :: Writable(payloads[i], max)
    requires NonEmpty(chunks) && Concat(chunks) == Frames(payloads)
    ensures ReadMany(chunks, Eof, max, |payloads| + 1) == AllThenClosed(payloads) <==> max < ISIZE_MAX
  {
    if Allocatable(max) {
      RoundTripWithinLimit(payloads, chunks, max);
    } else {
      assert ReadMany(chunks, Eof, max, |payloads| + 1)[0] == ReadChunks(chunks, Eof, max).0;
      assert AllThenClosed(payloads)[0] == Returned(if payloads == [] then Err(PeerClosed) else Ok(payloads[0]));
    }
  }

  lemma ReadsFirstFrame(payloads: seq<Bytes>, chunks: seq<Bytes>, max: usize)
    requires Allocatable(max) && payloads != [] && Writable(payloads[0], max)
    requires NonEmpty(chunks) && Concat(chunks) == Frames(payloads)
    ensures var (outcome, rest) := ReadChunks(chunks, Eof, max);
            outcome == Returned(Ok(payloads[0])) && NonEmpty(rest) && Concat(rest) == Frames(payloads[1..])
  {
    ReadMatchesSpec(chunks, Eof, max);
    hide ReadChunks;
    var stream := Concat(chunks);
    var n := |payloads[0]|;
    assert stream == payloads[0] + [LF] + Frames(payloads[1..]);
    hide Frames;
    FirstLfIs(stream, n);
    assert stream[..n] == payloads[0];
    assert stream[n + 1..] == Frames(payloads[1..]);
  }

  lemma {:induction false} RoundTripWithinLimit(payloads: seq<Bytes>, chunks: seq<Bytes>, max: usize)
    requires Allocatable(max)
    requires forall i | 0 <= i < |payloads| :: Writable(payloads[i], max)
    requires NonEmpty(chunks) && Concat(chunks) == Frames(payloads)
    ensures ReadMany(chunks, Eof, max, |payloads| + 1) == AllThenClosed(payloads)
  {
    hide ReadChunks, Writable;
    var (outcome, rest) := ReadChunks(chunks, Eof, max);
    if payloads == [] {
      ReadMatchesSpec(chunks, Eof, max);
    } else {
      ReadsFirstFrame(payloads, chunks, max);
      RoundTripWithinLimit(payloads[1..], rest, max);
    }
  }
}
