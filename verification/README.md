# Fovea: verified models of the guest agent, the vsock transport and the VM launcher

A Dafny model of the parts of Fovea where several things happen at once, or where bytes and text
have to be taken apart exactly, and proofs of what those parts promise. `dafny verify dfyconfig.toml`
checks everything. State that the program changes in place is modelled by classes and loops, each
method proved against a function; concurrency is modelled by step relations over which an inductive
invariant is proved; the theorems then speak about every run, every schedule and every input. The `Service`
modules say the converse: what an operation that nobody disturbs does get done.

| files | what they model |
|---|---|
| `SymbolizerLifecycle`, `SymbolizerWorker`, `SymbolizerInvariant`, `SymbolizerTheorems`, `SymbolizerService`, `SymbolizerShutdown` | the symbolizer worker: one thread, a bounded queue, one-shot replies, any number of callers, one shutdown handle, panics |
| `Codec`, `Endpoint` | bounded JSON Lines framing over a chunked reader; the terminal close and the guarded operations |
| `Connection`, `ConnectionInvariant`, `ConnectionTheorems`, `ConnectionService` | any number of concurrent operations on one endpoint |
| `ProcText`, `ProcStat`, `ProcMapLine`, `ProcGrammar`, `ProcMaps`, `ProcMapsFile`, `StableOrder`, `Utf8` | the procfs parsers, the memory histogram, the largest mappings, truncation |
| `ProcGeneration` | reading one process out of procfs while pids are reused |
| `LowFields`, `Confidence`, `Assembly`, `Introspection` | merging of degradation evidence, the overall confidence, the assembled Level 0 result, and what the worker's shutdown leaves in it |
| `Launch`, `LaunchInvariant`, `LaunchTheorems`, `LaunchHazard`, `LaunchService` | concurrent `run-vm.sh` launchers, their mkdir reservations and their signals |
| `Common` | what several modules share |

## What was found

* `read_frame` needs one byte more than its limit. At `usize::MAX` that sum overflows and every frame is
  rejected; from `isize::MAX` on the buffer is larger than any allocation may be, and the call panics. Reading
  undoes writing exactly for the limits below (`Codec.RoundTrip`).
* Where `read_frame` leaves the reader depends on how the bytes arrived exactly when it reports a frame that is
  too large, apart from a stream that just fills the buffer (`Codec.PositionDependsOnChunking`, and
  `Codec.PositionDependsOnBytes` for the same in terms of the stream). A reader that went on could deliver a line
  that was never sent (`Codec.TooLargeDesynchronises`). The terminal close is what makes delivery safe
  (`ConnectionTheorems.NoDeliveryAfterReadError`).
* Bucket sizes of the memory histogram are added in 64 bits. They are exact if and only if no kind needs
  more (`ProcMaps.HistogramConserves`); two overlapping ranges of nearly the whole address space do
  (`ProcMapsFile.OverlapLosesSizes`), ranges that do not overlap, which is what one address space has, never.
* `run-vm.sh` keeps live QEMU children apart exactly as long as no launcher gets more than one TERM or INT,
  and no other signal that ends a shell (`LaunchHazard.SafeExactlyUpToOneSignal`). A second TERM or INT, while
  `forward_signal` is removing the reservations, ends the shell through its EXIT trap; that trap goes through
  the whole list again and removes directories that another launcher has made in the meantime. A signal that
  is not trapped, such as HUP, is not deferred around the fork either: right after it, the EXIT trap finds no
  pid, and gives up the reservations of a child that goes on running.
* That a launcher gives reservations up only before it has forked or after it has reaped its child holds under
  any number of TERM and INT, and exactly as long as no untrapped signal comes
  (`LaunchHazard.ReapsFirstExactlyWithoutUntrapped`).

## Assumptions

* Every lock, channel operation, mkdir, rmdir and file open is one atomic step. Operations on an endpoint
  run to completion, or unwind from the one panic described above.
* An allocation that is not too large succeeds.
* An encoded message is not empty, has no raw line feed and does not end in a carriage return
  (`Codec.EncodedPayload`); section 7 of RFC 8259 demands that control characters in strings are escaped.
* A sleep lasts at least as long as was asked for. Start times strictly increase from one generation of a
  pid to the next.
* Cooperating launchers run on one file system; a caller of `shutdown` holds the only handle. A signal that
  ends the shell does so with or without running its EXIT trap; both are considered.
* Confidence scores are exact reals.

## Model

| member | source | states |
|---|---|---|
| SymbolizerLifecycle.WorkerLifecycle.CheckTerminal | crates/guest-agent/src/symbolize.rs:120-128 | no error exactly in the two states that still take requests |
| SymbolizerLifecycle.WorkerLifecycle.Begin | crates/guest-agent/src/symbolize.rs:130-144 | does what the protocol's begin decides: starts executing only when running; otherwise refuses with the terminal error and leaves the state |
| SymbolizerLifecycle.WorkerLifecycle.Finish | crates/guest-agent/src/symbolize.rs:146-157 | does what the protocol's finish decides: goes back to running only when executing; tells the worker to stop exactly in a terminal state |
| SymbolizerLifecycle.WorkerLifecycle.RequestStop | crates/guest-agent/src/symbolize.rs:159-168 | always leaves a terminal state, changes nothing in one, and says whether it was the one that asked |
| SymbolizerLifecycle.WorkerLifecycle.RecordStopped | crates/guest-agent/src/symbolize.rs:177-183 | an orderly stop never hides a panic |
| SymbolizerLifecycle.ImpossibleOnlyOutOfTurn | crates/guest-agent/src/symbolize.rs:130-157 | the unreachable arms are for a second request at once and an end without a beginning only; everything else follows the terminal error |
| SymbolizerTheorems.PanicIsFinal | crates/guest-agent/src/symbolize.rs:146-189 | once recorded, a panic is covered up neither by a shutdown request nor by the end of a request nor by an orderly stop |
| SymbolizerTheorems.ExitTellsThePanic | crates/guest-agent/src/symbolize.rs:466-496 | a worker that is gone has left Panicked exactly if a backend call panicked, even after a shutdown request, and Stopped otherwise |
| SymbolizerInvariant.StepKeepsInv | crates/guest-agent/src/symbolize.rs:130-189 | every step of worker, caller, handle or environment keeps the invariant that ties the worker's program point, the queue, the settlements and the callers to the lifecycle |
| SymbolizerInvariant.RunKeepsInv | crates/guest-agent/src/symbolize.rs:444-502 | the invariant holds in every state of every run |
| SymbolizerTheorems.SettledOnceInOrder | crates/guest-agent/src/symbolize.rs:211-246 | requests are settled in the order of acceptance, none twice, and all of them once the worker has exited |
| SymbolizerTheorems.SendIsRefusedExactlyWhenFull | crates/guest-agent/src/symbolize.rs:224-232 | in every run: a send is refused exactly if as many accepted requests are waiting as the queue holds, accepted behind all others exactly if there are fewer, lost exactly if the receiver is gone |
| SymbolizerTheorems.CheckLetsInExactlyWhileOpen | crates/guest-agent/src/symbolize.rs:211-222 | a call is let in exactly while nobody has asked the worker to stop and it has neither stopped nor panicked, and is told which otherwise |
| SymbolizerTheorems.EveryEndSaysWhy | crates/guest-agent/src/symbolize.rs:211-246 | a refused call is told QueueFull, a timed-out one Timeout, a turned-away one the terminal error, in every state of every run |
| SymbolizerService.LoneCallIsServed | crates/guest-agent/src/symbolize.rs:211-496 | a new call to an idle worker gets what the backend returns for its address, and the worker is idle again |
| SymbolizerService.LoneShutdownSucceeds | crates/guest-agent/src/symbolize.rs:284-304 | shutting down an idle worker stops it, and the join says Ok |
| SymbolizerService.LoneDropEndsTheWorker | crates/guest-agent/src/symbolize.rs:307-314 | dropping the handle without a shutdown stops an idle worker as well |
| SymbolizerService.LastClientEndsTheWorker | crates/guest-agent/src/symbolize.rs:490-493 | so does dropping the last client |
| SymbolizerService.LateCallIsTold | crates/guest-agent/src/symbolize.rs:226-246 | a call that sends to a worker that has ended is told how it ended |
| SymbolizerService.DroppedCallIsTold | crates/guest-agent/src/symbolize.rs:226-246 | so is one whose request the worker dropped |
| SymbolizerTheorems.PollTakesTheSignal | crates/guest-agent/src/symbolize.rs:450-462 | a look at the shutdown channel takes one signal, and asks for the end exactly if there is one or the handle is gone |
| SymbolizerTheorems.SignalIsThereUntilPolled | crates/guest-agent/src/symbolize.rs:284-314 | in every run: at most one signal, there exactly from its sending until the next look; the sender until it is dropped |
| SymbolizerTheorems.ClientsAreCounted | crates/guest-agent/src/symbolize.rs:202-208 | in every run: the live clients are the first one and its clones, less those dropped |
| SymbolizerTheorems.BackendRanAPrefix | crates/guest-agent/src/symbolize.rs:444-502 | executed requests are a prefix of the accepted ones; an executed request is settled with its own completion, any other is rejected with the terminal error or disconnected |
| SymbolizerTheorems.CallerGetsOwnAnswer | crates/guest-agent/src/symbolize.rs:211-246 | a received answer is the only settlement of the caller's own request, computed for the caller's own address if it came from the backend, whoever else timed out |
| SymbolizerTheorems.SentIsSettledAtExit | crates/guest-agent/src/symbolize.rs:226-246 | every request that was sent, timed out or not, is settled exactly once by the time the worker has exited |
| SymbolizerTheorems.DisconnectFindsTerminalState | crates/guest-agent/src/symbolize.rs:226-246 | a disconnected caller always finds a terminal state, so the default is never used, and reports a panic exactly if there was one |
| SymbolizerTheorems.UnreachableArmsAreDead | crates/guest-agent/src/symbolize.rs:130-157 | neither unreachable arm can be reached |
| SymbolizerTheorems.HistoriesGrow | crates/guest-agent/src/symbolize.rs:444-502 | acceptances, executions and settlements are never taken back |
| SymbolizerTheorems.NoBackendCallAfterShutdown | crates/guest-agent/src/symbolize.rs:450-496 | once the lifecycle is terminal no backend call begins; once the worker has exited the lifecycle never changes |
| SymbolizerTheorems.ExecutingCallKeepsItsResult | crates/guest-agent/src/symbolize.rs:450-496 | the call in progress when shutdown comes is settled with its own result |
| SymbolizerTheorems.HandleRemembersItsRequest | crates/guest-agent/src/symbolize.rs:284-304 | what the handle decides by is the lifecycle at its own request |
| SymbolizerTheorems.ShutdownOutcome | crates/guest-agent/src/symbolize.rs:284-304 | after a join the result is a panic exactly if there was one, and stopped only if the worker had stopped by itself for want of clients |
| SymbolizerTheorems.ShutdownNeverStoppedWithClient | crates/guest-agent/src/symbolize.rs:284-304 | with a client alive at the request, the result is never stopped, and giving up is always a timeout |
| SymbolizerTheorems.WorkerNeverStuck | crates/guest-agent/src/symbolize.rs:444-496 | until it has exited the worker always has a step to take |
| SymbolizerTheorems.ShutdownTerminates | crates/guest-agent/src/symbolize.rs:444-502 | after the lifecycle is terminal the worker takes at most a fixed number of steps, however callers interfere, and has exited after that many |
| SymbolizerShutdown.AwaitWorker | crates/guest-agent/src/symbolize.rs:284-304 | at most ceil(timeout / 5 ms) + 1 looks at the thread, the last one decides, giving up only after the timeout; the subtraction cannot underflow |
| SymbolizerShutdown.Shutdown | crates/guest-agent/src/symbolize.rs:284-304 | the whole of shutdown behind its request: the last of at most ceil(timeout / 5 ms) + 1 looks decides |
| SymbolizerShutdown.ShutdownTellsTheRun | crates/guest-agent/src/symbolize.rs:284-304 | in any run, for any looks: a timeout exactly if the worker was there at each, a panic exactly if it was found gone with one, with a client alive at the request Ok exactly if it was found gone without one; the protocol step that ends the wait agrees |
| SymbolizerShutdown.RequestReceiver.RejectPending | crates/guest-agent/src/symbolize.rs:498-502 | empties the queue and answers each request in order with the error |
| SymbolizerShutdown.DrainAllRejectsInOrder | crates/guest-agent/src/symbolize.rs:498-502 | the drain steps of the protocol do the same |
| Codec.OwnedFrame.Append | crates/vsock/src/codec.rs:33-37 | appends in place, only ever inside the buffer |
| Codec.OwnedFrame.StripTrailingCr | crates/vsock/src/codec.rs:39-43 | drops one trailing carriage return and nothing else |
| Codec.ReadFrame | crates/vsock/src/codec.rs:128-182 | the reading loop, on a buffer of one byte more than the limit, returns what the chunk-free specification says of the byte stream; a buffer that cannot be allocated panics before anything is read |
| Codec.ScanMatchesSpec | crates/vsock/src/codec.rs:128-182 | for any division into chunks the loop and the byte-stream specification agree, and the loop stops where it should |
| Codec.ReadMatchesSpec | crates/vsock/src/codec.rs:128-182 | result independent of the chunking; a delivered or empty frame consumes exactly through its line feed, nothing ever consumes beyond it |
| Codec.FrameMeansLine | crates/vsock/src/codec.rs:128-182 | a payload is read exactly if it is the first line of the stream, with or without a carriage return, not empty and within the limit |
| Codec.EmptyMeansBlank | crates/vsock/src/codec.rs:166-169 | an empty frame is reported exactly for a stream that starts with a blank line |
| Codec.EndMeansNoLine | crates/vsock/src/codec.rs:140-147 | the three reports of the end of a stream, exactly where no line feed is left and nothing is too long |
| Codec.OverlongIsHopeless | crates/vsock/src/codec.rs:171-180 | bytes are given up on exactly if nothing that follows could make them an acceptable line |
| Codec.OverlongStaysTooLarge | crates/vsock/src/codec.rs:150-180 | rejecting a long line early is right: no continuation could have made it acceptable |
| Codec.PositionDependsOnChunking | crates/vsock/src/codec.rs:128-182 | for every stream and limit: all divisions leave the reader at the same place if and only if the result is not a frame that is too large, or the stream just fills the buffer, or the limit rejects everything unread |
| Codec.PositionDependsOnBytes | crates/vsock/src/codec.rs:128-182 | the same condition in bytes: the position is fixed if and only if no buffer can be had, or neither the first line nor an unfinished one is too long, or the stream just fills the buffer |
| Codec.TooLargeDesynchronises | crates/vsock/src/codec.rs:150-180 | an instance in which going on would yield a frame that nobody wrote |
| Codec.WriteFrame | crates/vsock/src/codec.rs:184-200 | an oversize payload writes nothing; otherwise the frame and its line feed, or a prefix of them if the transport fails |
| Codec.RoundTrip | crates/vsock/src/codec.rs:25-200 | reading what was written, under any chunking and with the same limit, gives exactly those payloads and then the end, if and only if the limit is below isize::MAX |
| Codec.RoundTripWithinLimit | crates/vsock/src/codec.rs:128-200 | that direction, by induction over the frames |
| Endpoint.TerminalClose.Finish | crates/vsock/src/linux.rs:210-229 | the first failure closes, shuts down once and keeps its error; everything after that is masked |
| Endpoint.EndpointIo.Read | crates/vsock/src/linux.rs:254-268 | unless closed before it has the lock, what the byte stream specifies, masked if others close meanwhile, and closing exactly on failure; if closed by then, nothing is read |
| Endpoint.EndpointIo.Write | crates/vsock/src/linux.rs:270-287 | unless closed before it has the lock, one frame, or a prefix of it and a close, masked if others close meanwhile; if closed by then, nothing is written |
| ConnectionInvariant.StepKeepsInv | crates/vsock/src/linux.rs:186-287 | every interleaved step keeps lock ownership, the single close, and both directions' histories consistent |
| ConnectionInvariant.RunKeepsInv | crates/vsock/src/linux.rs:186-287 | in every state of every run |
| ConnectionTheorems.DeliveredIsAPrefixOfLines | crates/vsock/src/linux.rs:254-268 | the messages delivered are, in order, the first lines the peer sent, under any chunking, error and concurrent close |
| ConnectionTheorems.NothingSucceedsAfterClose | crates/vsock/src/linux.rs:202-229 | after the flip nothing is delivered and no further operation succeeds |
| ConnectionTheorems.LooksAfterCloseAreMasked | crates/vsock/src/linux.rs:202-229 | in every run, an operation that evaluates ensure_open or finish after the flip ends with PeerClosed and stays so |
| ConnectionTheorems.ClosedOnceByOneWinner | crates/vsock/src/linux.rs:186-230 | at most one physical shutdown; once closed exactly one failing operation keeps its own error, which is the one it had come to |
| ConnectionTheorems.ResultIsKept | crates/vsock/src/linux.rs:210-229 | an operation that has come to a value or an error ends with that value or error, or with PeerClosed, in every later state |
| ConnectionTheorems.OwnErrorIsGenuine | crates/vsock/src/linux.rs:216-227 | whoever keeps an error of its own had come to that very error before |
| ConnectionTheorems.NoDeliveryAfterReadError | crates/vsock/src/linux.rs:210-268 | a failed read is followed by no delivery, wherever it left the reader |
| ConnectionTheorems.OutputIsWholeFramesThenOnePart | crates/vsock/src/linux.rs:270-287 | the bytes sent are whole frames in lock order and then at most one partial frame |
| ConnectionTheorems.NoWriteAfterSendFailure | crates/vsock/src/linux.rs:210-287 | after a failed send no byte is written any more |
| ConnectionTheorems.LinesOfFrames | crates/vsock/src/codec.rs:128-200 | the complete lines of any prefix of an encoded stream are the first payloads |
| ConnectionTheorems.EndToEnd | crates/vsock/src/linux.rs:254-287 | between two endpoints, what one delivers is a prefix of what the other started to send |
| ConnectionTheorems.IdleReaderHasDelivered | crates/vsock/src/linux.rs:254-268 | on an open connection with an idle reader, delivered and unread lines are all of the peer's, so once no line feed is left everything has been delivered |
| ConnectionTheorems.IdleWriterHasSent | crates/vsock/src/linux.rs:270-287 | on an open connection with an idle writer, exactly the started frames have been sent |
| ConnectionTheorems.EndToEndComplete | crates/vsock/src/linux.rs:254-287 | between two open, idle endpoints, with every byte read, what one delivers is exactly what the other sent |
| ConnectionService.LoneRecv | crates/vsock/src/linux.rs:254-268 | undisturbed, a recv ends with what the byte stream says: its frame, delivered, or its error, with the connection closed and shut down once, or the panic |
| ConnectionService.LoneSend | crates/vsock/src/linux.rs:270-287 | undisturbed, a send puts its whole frame out and succeeds, or any front part of it where the transport fails, and closes |
| ConnectionService.LoneSendTooLarge | crates/vsock/src/linux.rs:270-287 | an oversize send fails with the limit, without a byte, and closes |
| ConnectionService.Reads | crates/vsock/src/codec.rs:98-182 | inside its lock a read comes to exactly what the byte-stream specification and the decoder say, and consumes what the codec consumes |
| ProcText.TokenStartAgrees | crates/guest-agent/src/proc_view.rs:629-645 | the index-finding scan finds a token exactly if tokenisation has one, and cuts the text just before it |
| ProcText.TokenStartIs | crates/guest-agent/src/proc_view.rs:629-645 | there is only one such index, and the scan finds it |
| ProcText.WhitespaceTokenStart | crates/guest-agent/src/proc_view.rs:629-645 | the loop returns the byte offset of that index |
| ProcText.HexRoundTrip | crates/guest-agent/src/proc_view.rs:560-627 | printed hexadecimal numbers parse back, padded or not |
| ProcText.DecimalRoundTrip | crates/guest-agent/src/proc_view.rs:93-217 | printed decimal numbers parse back, unsigned and signed |
| ProcMapLine.PathIsAlwaysLocated | crates/guest-agent/src/proc_view.rs:560-627 | the branch for a path that cannot be located is dead |
| ProcMapLine.ParsedRangesAreProper | crates/guest-agent/src/proc_view.rs:560-627 | accepted lines have a proper 64-bit range, proper permissions and a path without leading white space |
| ProcMapLine.PrintedVmaParses | crates/guest-agent/src/proc_view.rs:560-627 | a printed mapping parses back to its range and permissions, and to its path byte for byte if and only if the path is none or does not start with white space |
| ProcStat.PrintedTaskParses | crates/guest-agent/src/proc_view.rs:93-217 | a printed stat line gives back pid, command name and every field, whatever the command name contains |
| ProcStat.PrintedValuesParse | crates/guest-agent/src/proc_view.rs:93-217 | and every selected field its value |
| ProcStat.StatesAreTold | crates/guest-agent/src/proc_view.rs:372-383 | every state letter has its own state, an unknown one keeps its letter |
| ProcStat.TicksAreTheSum | crates/guest-agent/src/proc_view.rs:93-217 | the process ticks are the sum of user and system time, saturating |
| ProcGrammar.UnsignedIsRead | crates/guest-agent/src/proc_view.rs:93-217 | a text is read as this unsigned number if and only if it is its digits in either case, behind any zeros and at most one plus sign, and the number is not too large |
| ProcGrammar.SignedIsRead | crates/guest-agent/src/proc_view.rs:93-217 | the same for 32-bit signed numbers |
| ProcGrammar.StatIsRead | crates/guest-agent/src/proc_view.rs:93-217 | a stat text is accepted, with these values, if and only if it is written so: what malformed texts are refused is exact |
| ProcGrammar.MapLineIsRead | crates/guest-agent/src/proc_view.rs:560-627 | a maps line is accepted, as this mapping, if and only if it is written so: range, permissions, offset, device and inode included |
| StableOrder.StableDescendingSorts | crates/guest-agent/src/proc_view.rs:512-515 | every mapping once, larger ones first, equal ones in file order |
| StableOrder.CutIsTop | crates/guest-agent/src/proc_view.rs:512-515 | wherever the order is cut, nothing left out comes before anything kept |
| ProcMaps.ParseMaps | crates/guest-agent/src/proc_view.rs:459-556 | valid and skipped lines are the non-empty ones; histogram and degradations are those of the valid lines; each shown entry has the bounds, size, kind and backing of the mapping at its position |
| ProcMaps.BuildHistogram | crates/guest-agent/src/proc_view.rs:500-510 | the buckets that have a mapping, in the fixed order of kinds |
| ProcMaps.BuildTop | crates/guest-agent/src/proc_view.rs:512-539 | shortens each kept backing in place and records each one that was |
| ProcMaps.TopShowsMapping | crates/guest-agent/src/proc_view.rs:480-539 | what is shown of a mapping parses back to its start and end, their distance is the size, the kind follows from path and permissions, the backing is the path or its longest prefix of 256 bytes |
| ProcMaps.HistogramConserves | crates/guest-agent/src/proc_view.rs:466-510 | bucket counts add up to the valid lines; bucket sizes add up to the ranges if and only if no kind exceeds 64 bits |
| ProcMaps.DisjointRangesNeverOverflow | crates/guest-agent/src/proc_view.rs:466-510 | ranges that are pairwise apart never overflow a bucket, so the sizes are exact |
| ProcMaps.ValidMapsFit | crates/guest-agent/src/proc_view.rs:466-510 | every accepted line lies in the address space, so of the two conditions of the previous row only the disjointness is left to the file |
| ProcMapsFile.LinesAreRead | crates/guest-agent/src/proc_view.rs:459-466 | every line of a text is read once and in its place, without one carriage return at its end; an unterminated last line exactly as it is |
| ProcMapsFile.PrintedFileParses | crates/guest-agent/src/proc_view.rs:459-510 | a whole printed file: no line is skipped, every mapping is counted, all come back if and only if no path starts with white space, and the histogram of mappings that do not overlap is exact |
| ProcMapsFile.PrintedTopsShow | crates/guest-agent/src/proc_view.rs:480-539 | the entries shown for a printed file are those of its mappings |
| ProcMapsFile.OverlapLosesSizes | crates/guest-agent/src/proc_view.rs:466-510 | two printed mappings that overlap are read back and counted, but their bucket size wraps |
| ProcMaps.TopPositionsAreTop | crates/guest-agent/src/proc_view.rs:512-515 | the kept mappings are the first of the stable descending order: nothing larger is left out, ties keep file order |
| ProcMaps.NotesNameShortened | crates/guest-agent/src/proc_view.rs:516-539 | the truncation degradations name exactly the indices whose backing was shortened, with its length in bytes before and after |
| ProcMaps.ShortenedIffNeeded | crates/guest-agent/src/proc_view.rs:516-539 | a backing changes exactly if it is too long, and then to its longest fitting prefix |
| Utf8.WellFormedIsEncoded | crates/guest-agent/src/proc_view.rs:647-656 | what counts as well-formed are exactly the encodings of strings, as Rust's strings are |
| Utf8.EncodedCharCarriesCode | crates/guest-agent/src/proc_view.rs:647-656 | and the octets of a character carry its number |
| Utf8.TruncateUtf8Bytes | crates/guest-agent/src/proc_view.rs:647-656 | ends, at most three bytes back, at the longest well-formed prefix that fits |
| Utf8.BoundariesAreTextPrefixes | crates/guest-agent/src/proc_view.rs:647-656 | the places where the loop may stop are exactly those where a prefix is well-formed text |
| Utf8.BoundaryIsNear | crates/guest-agent/src/proc_view.rs:647-656 | there is one within three bytes |
| Utf8.TruncationKeepsWholeCharacters | crates/guest-agent/src/proc_view.rs:647-656 | truncating bytes and truncating characters are the same operation |
| ProcGeneration.Procfs.ReadOptional | crates/guest-agent/src/proc_source.rs:468-479 | a missing optional file is accepted only while the pid's directory is there |
| ProcGeneration.Procfs.ReadStable | crates/guest-agent/src/proc_source.rs:241-262 | succeeds only between two looks at stat that show the requested pid and one start time |
| ProcGeneration.Procfs.ReadRequired | crates/guest-agent/src/proc_source.rs:453-466 | which reads stand in the way, and an error only for a cause that the read shows |
| ProcGeneration.Procfs.ReadCpuPair | crates/guest-agent/src/proc_source.rs:160-172 | the system's counters are read right behind the process's |
| ProcGeneration.Procfs.ReadSnapshot | crates/guest-agent/src/proc_source.rs:349-433 | the snapshot shows what the log of reads has; it fails only if a read was harmed or the start times differ |
| ProcGeneration.Procfs.CpuCounters | crates/guest-agent/src/proc_source.rs:435-446 | the second look at stat and at the system counters |
| ProcGeneration.Procfs.Introspect | crates/guest-agent/src/introspect.rs:213-317 | succeeds if and only if no read was harmed and all of them hit one process; then every field is that process's and every read was made, in its place; an error has its cause among the reads, or the process changed |
| ProcGeneration.EqualStartsUndisturbed | crates/guest-agent/src/proc_source.rs:241-262 | two looks with the same start time leave no room for another process in between |
| ProcGeneration.StartsDifferDisturb | crates/guest-agent/src/introspect.rs:298-317 | two looks with different start times are never one process |
| LowFields.Recorder.Merge | crates/guest-agent/src/introspect.rs:717-741 | merges into the entry of its path or makes one at the end |
| LowFields.Recorder.MergeDegradations | crates/guest-agent/src/introspect.rs:676-688 | each degraded read becomes evidence without any confidence |
| LowFields.NothingIsLost | crates/guest-agent/src/introspect.rs:676-741 | after any merges: one entry for each path, its confidence the minimum over all evidence, its reason containing every reason |
| LowFields.MergedAllGrows | crates/guest-agent/src/introspect.rs:717-741 | entries stay where they are, and the list grows exactly by paths never heard of |
| LowFields.ScoresFall | crates/introspect-schema/src/lib.rs:380-390 | the five grades, from 1 to 0, a quarter apart |
| Confidence.OverallIsTheQuotient | crates/guest-agent/src/introspect.rs:661-674 | the overall confidence lies in [0, 1] before it is clamped |
| Confidence.EvidenceNeverRaises | crates/guest-agent/src/introspect.rs:661-741 | more evidence never raises it, and leaves it exactly if every path was known or nothing was left to lose |
| Confidence.ComponentIsMean | crates/guest-agent/src/introspect.rs:661-674 | the component of a blocked process is the mean of its frames' scores, so it lies between them |
| Confidence.UnblockedStartsAtOne | crates/guest-agent/src/introspect.rs:661-674 | without frames the overall confidence is 10 / (10 + n) for n paths on the list |
| Confidence.AllEvidenceIsExact | crates/guest-agent/src/introspect.rs:348-655 | what is merged is exactly: each degraded read of procfs or maps, each shown frame without a symbol or grade, a missing stack, a mismatch of wait channel and stack, an unknown state, and each thing that is absent |
| Confidence.AddressReadsHex | crates/guest-agent/src/introspect.rs:563-570 | an address is read as hexadecimal, with 0x in front or without |
| Confidence.NormalizeCutsOffset | crates/guest-agent/src/introspect.rs:657-659 | symbols are compared without their offsets |
| Confidence.Tokens | crates/guest-agent/src/introspect.rs:702-708 | four bytes to a token, rounded up, saturating |
| Confidence.BuildHotspot | crates/guest-agent/src/introspect.rs:544-599 | frames exactly for a blocked process, the first five lines at most, each showing what the symbolizer answered about its address or the raw name, and one entry for each frame that failed |
| Confidence.Level0.RecordSymbolizerDegradation | crates/guest-agent/src/introspect.rs:690-700 | adds the evidence and leaves summary and token estimate fitting the final payload |
| Assembly.RecordConfidence | crates/guest-agent/src/introspect.rs:601-655 | frames without confidence and a mismatch of wchan and top frame go on the record |
| Assembly.BuildLevel0 | crates/guest-agent/src/introspect.rs:348-491 | the list tells everything the findings speak against, once for each path at its lowest confidence, and nothing else; overall confidence and token estimate are those of the final list |
| Assembly.AssembleDefault | crates/guest-agent/src/introspect.rs:125-191 | on every successful path the list tells everything the findings and the worker's failure speak against, and nothing else; the summary fits it |
| Introspection.AssembleAfterShutdown | crates/guest-agent/src/introspect.rs:104-160 | shutdown and then the result: the verdict of its last look is on the record together with everything the findings speak against |
| Introspection.ShutdownLeavesTheTruth | crates/guest-agent/src/introspect.rs:104-160 | since the client outlives the shutdown, in any run the record holds nothing, a panic or a timeout exactly as the looks found the worker, and never that it had stopped by itself |
| LaunchInvariant.StepKeepsFits | scripts/m0/run-vm.sh:151-228 | each launcher's locks, traps and child fit its program point after every step, unless a signal runs the EXIT trap before the pid is noted |
| LaunchInvariant.StepKeepsShells | scripts/m0/run-vm.sh:151-228 | locks and traps fit whatever signal arrives when |
| LaunchInvariant.StepKeepsInv | scripts/m0/run-vm.sh:151-228 | and it owns every reservation it has to, unless a signal runs the EXIT trap there or in the middle of the release loop |
| LaunchTheorems.LiveChildrenShareNothing | scripts/m0/run-vm.sh:408-464 | no two children that are not reaped share a QMP path, pidfile, GDB port, CID or disk, in any run without such a signal |
| LaunchTheorems.RemovalFollowsReaping | scripts/m0/run-vm.sh:151-210 | a reservation is removed only by a launcher that never forked or has reaped its child, in every run where no signal runs the EXIT trap before the pid is noted |
| LaunchTheorems.RemovalIsOfOnesOwn | scripts/m0/run-vm.sh:151-228 | without such signals, only by the launcher that made it |
| LaunchTheorems.OneSignalIsHarmless | scripts/m0/run-vm.sh:166-210 | one TERM or INT for each launcher, and nothing else, never causes them |
| LaunchTheorems.TrappedSignalsOrphanNobody | scripts/m0/run-vm.sh:434-442 | any number of TERM and INT around the fork leaves no child behind |
| LaunchService.SignalIsNeverLost | scripts/m0/run-vm.sh:434-456 | in every run: a launcher that has got a TERM or INT never goes on to wait for its child, and goes to forward_signal where it looks for a deferred one |
| LaunchService.EachSignalHasItsTrap | scripts/m0/run-vm.sh:408-456 | in every run: on the main line a TERM or INT is noted exactly between the two traps of its own around the fork, and starts forward_signal elsewhere |
| LaunchService.FailureEndsTheShell | scripts/m0/run-vm.sh:212-228 | a reservation or descriptor that cannot be had, or a failing fork, ends the launcher through its EXIT trap and changes nothing else |
| LaunchService.LiveChildLivesUntilItExits | scripts/m0/run-vm.sh:457-464 | no launcher takes a live child for one it has waited for |
| LaunchService.SignalAtTheFork | scripts/m0/run-vm.sh:434-456 | a TERM right after the fork is noted, and acted on: the child is waited for and every reservation given back |
| LaunchService.SignalWhileWaiting | scripts/m0/run-vm.sh:184-210 | so is one while it waits |
| LaunchService.UntrappedWhileWaiting | scripts/m0/run-vm.sh:166-182 | and an untrapped one, once the pid is known |
| LaunchService.LoneLauncherCleansUp | scripts/m0/run-vm.sh:408-464 | a launcher that is left alone launches, waits, and leaves neither a child nor a reservation behind |
| LaunchService.DryRunCleansUp | scripts/m0/run-vm.sh:408-432 | a dry run reserves everything, forks nothing and gives everything back |
| LaunchService.ConflictLeavesReservations | scripts/m0/run-vm.sh:212-228 | a launcher that finds its first resource taken gives up and touches nothing |
| LaunchTheorems.HazardTakesSignals | scripts/m0/run-vm.sh:166-210 | releasing twice takes an untrapped signal or a second TERM or INT to one launcher; orphaning a child takes an untrapped one |
| LaunchHazard.TwoSignalsCanShare | scripts/m0/run-vm.sh:151-210 | for any configuration that can be launched at all, two TERM to one launcher can lead to two other launchers with live children and the same resources |
| LaunchHazard.OneUntrappedCanShare | scripts/m0/run-vm.sh:166-182 | for any such configuration, one untrapped signal to a launcher can lead to its own child and another launcher's living with the same resources |
| LaunchHazard.SafeExactlyUpToOneSignal | scripts/m0/run-vm.sh:151-228 | live children never share a resource in any run if and only if no launcher may get more than one TERM or INT, nor any untrapped signal |
| LaunchHazard.ReapsFirstExactlyWithoutUntrapped | scripts/m0/run-vm.sh:434-442 | under any number of TERM and INT, reservations go only before the fork or after the reaping if and only if no untrapped signal may come |

## Left out

- Serialisation and deserialisation of messages, UUIDs, timestamps and error texts; a payload is a byte string, and the length of a serialised Level 0 is a parameter.
- Sockets, polling, file reads, sysconf, blazesym and thread creation themselves; their outcomes are parameters or steps.
- Cancellation of a read or write half way; the code claims nothing about it.
- A queue of capacity 0, starting the worker, and waiting for a lifecycle state in tests.
- Liveness of the release of launch reservations: a signal between mkdir and the recording of its path leaves a directory behind.
- How the launcher derives canonical paths, the lock root and the disk key; they are the configuration.
- Which text a parse error carries; parsers say only whether they accept.
- Overflow checks of debug builds; the histogram wraps as in a release build.
- Sorting the histogram by kind again after it was built in that order.
- Start times that repeat within one clock tick of the kernel.
- `parse_status`, `parse_cgroup`, `parse_system_cpu`, wchan and stack texts, command line shortening and the CPU percentage: one-branch facts. Whether they accept is a fault of the read in `ProcGeneration`.
- The host supervisor, the mock transport, schema accessors, the QMP, GDB and trace probes.
- Rounding of 32-bit floats in the confidence.
- LaunchTheorems.LiveChildrenShareNothing: compares ports, ids and disks only between launchers with the same lock root, since those reservations live there.
