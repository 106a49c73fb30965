# Verification of msquic-async

msquic-async turns MsQuic's callback interface into pollable futures. Between callbacks, application
polls and destructors it keeps a small concurrent protocol: mutex-guarded queues, waiter lists, pools of
buffers that travel through MsQuic as raw pointers, and an atomic rundown counter. This project models
that protocol in Dafny and proves what the crate is for:

- bytes are delivered exactly, and never reclaimed while somebody can still read them;
- what MsQuic is handed is exactly what writes accepted;
- nobody sleeps on an answer that is already there;
- a registration is idle only when every handle made from it is closed, and whoever waits for that is woken.

## How the model is built

Each source file with mutable state appears twice. A value-level module says what every critical section
does to the value of the state (`Receive`, `SendPath`, `StartPath`, `Connection`, `Listener`, `Rundown`,
`H3`). Classes with the fields of the source (`RecvBuffer`, `WriteBuffers`, `StreamInner`,
`ConnectionInner`, `OpenOutbound`, and classes inside `Listener`, `Rundown` and `H3`) have one method per
critical section, with the source's branches and loops, proved to do exactly that. Most of these methods
have no row below: they tie the imperative form to a value-level function, and the rows name what is proved
about that function. Rows of class methods are those with a loop, an array, or several steps of their own.

The `...Runs` modules (and the run sections of `Rundown`, `RundownHandles`, `Listener` and `H3`) put the
value-level sections into a step relation: one locked section or one atomic operation is one step, and
polls, destructors and MsQuic events interleave freely. `Runs` defines finite runs once for all of them.
`Inv` is inductive, `Reachable` is the states of all finite runs, and the main results hold in every
reachable state. A witness is a run given step by step. A waker is a task identity, and waking is taking
the identity off a list. Long invariants bind their conjunction to a name, which keeps the verifier from
unfolding them at every use.

The stream modules carry their history along: the last start status, a cancellation, the last code of the
peer, and what ShutdownComplete carried. What a call answers is stated from that history, not from the
fields the code keeps.

`RundownHandles` models an instance as its ordered fields with the counts of references to it and to its
`Inner`. Fields drop front to back, the native Close drops the closure, and a last reference takes the queue
along. The order of the fields is a parameter, so that what the declared order is for can be proved.

MsQuic is an environment whose promises are guards on its steps:

1. `Receive` events are contiguous, FIN is on the last one only, no segment is empty, and one event stays
   below 2^32 bytes.
2. `PeerSendShutdown` comes once the lengths passed to `receive_complete` reach the final size.
3. The context of a successful send comes back at most once while it is out.
4. A stream is started or accepted at most once, before any shutdown event; `ShutdownComplete` ends the
   receive events. The connection invariants need no order of events at all.
5. A native Close waits for the callbacks that are running and then drops the callback closure. That the
   queues go with it is derived.
6. An application close of a stream is under way only once the last reference to the stream is dropped, and a
   buffer that is held has one.

A stream offers the ordered byte stream of section 2.2 of RFC 9000; its halves follow the sending and
receiving states of sections 3.1 and 3.2 of RFC 9000.

## Where the code falls short

Some properties one would expect do not hold of the code. Each is stated exactly, and a run shows that it
happens:

- `abort_read` leaves parked readers parked (`ReceiveRuns.AbortReadStrandsExactlyTheParked`,
  `ReceiveRuns.StrandedReaderExists`).
- An empty FIN buffer is not reported to MsQuic when it is dropped while some byte before it is released and
  another one is not, and it is reported too early when some byte precedes it and none is released
  (`ReceiveRuns.FinOnlyDrop`, `ReceiveRuns.FinNeverReported`, `ReceiveRuns.FinReportedEarly`).
- Stream `ShutdownComplete` wakes nobody in `poll_finish_write` or `poll_abort_write`
  (`SendRuns.FinisherParked`, `SendRuns.StrandedFinisherExists`).
- An end of either half before the stream is accepted does not wake the tasks parked on the start: writes,
  finishes, reads and aborts sleep until `ShutdownComplete` although their answer is known
  (`SendRuns.StartersSleepOn`, `SendRuns.WhatWakesStarters`, `SendRuns.SleepingStartersExist`, and the
  same three of `ReceiveRuns`).
- `poll_abort_write` and `poll_abort_read` do not report a cancellation on loss (`SendRuns.FinishAndAbortDiffer`,
  `SendRuns.CancelledAbortSucceeds`, `ReceiveRuns.ReadAndAbortDiffer`, `ReceiveRuns.CancelledAbortSucceeds`).
- `poll_start` of a stream panics after an aborted start without a connection error or a failure without a
  name, and so does the future that opens the stream (`SendRuns.StartPanicsExactlyWhen`, `SendRuns.StartCanPanic`,
  `OpenOutbound.OpenPanicsExactlyWhen`, `OpenOutbound.AbortedStartPanics`).
- No shutdown handler wakes the tasks waiting for a unidirectional stream (`ConnectionRuns.UniWaitersStay`,
  `ConnectionRuns.WhoIsLeftAtTheEnd`, `ConnectionRuns.StrandedUniAccept`).
- A `Connected` event after a local shutdown makes the connection usable again
  (`ConnectionRuns.OnlyConnectedUndoesShutdown`, `ConnectionRuns.ForgottenShutdown`).
- Queued streams and datagrams can be taken exactly while the connection is connected, and events also while
  it shuts down; otherwise they are refused (`Connection.TakenExactlyWhen`, `ConnectionRuns.RefusedThoughQueued`).
- A task accepting a stream or receiving a datagram sleeps through a local shutdown, until something arrives
  on its own queue, a shutdown is indicated, or `ShutdownComplete` (`ConnectionRuns.SleepersWouldSleepOn`,
  `ConnectionRuns.WhatWakesThem`, `ConnectionRuns.AsleepOnAnAnswer`).
- The native stop of a listener runs after the lock is released. A start that succeeds before it is called
  makes it stop the wrong session (`Listener.LateStop`, `Listener.LateStopStopsTheWrongSession`,
  `Listener.LateStopHappens`).
- After a failed write the h3 send stream keeps its data, refuses new data, and `poll_send` panics
  (`H3.FailureKeepsTheData`, `H3.PollSendPanicsExactlyWhen`, `H3.FailedWriteBlocks`).
- In the middle of a write finishing, resetting and asking for the id of an h3 stream find no stream and panic,
  and so do stopping and asking for the id while a chunk read is pending (`H3.PanicsOnlyMidWrite`, `H3.MidWritePanics`,
  `H3.RecvPanicsExactlyWhen`).

## Model

| member | source | states |
|---|---|---|
| `Sync.RegisterWaker` | msquic-async/src/sync.rs:37-41 | the scan pushes the task exactly when no entry wakes it already |
| `Sync.OneEntryPerTask` | msquic-async/src/sync.rs:31-41 | however often tasks poll, the list is the old one followed by the other tasks, each of them once, in the order of their first poll |
| `RangeSet.InsertKeepsCoalesced` | msquic-async/src/stream.rs:1204-1206 | inserting a completed range keeps the set sorted, disjoint and with gaps between ranges |
| `RangeSet.InsertIsUnion` | msquic-async/src/stream.rs:1204-1206 | a position is completed after the insert exactly when it was before or lies in the new range |
| `RangeSet.PrefixIsMaximal` | msquic-async/src/stream.rs:1207-1210 | the first range, if it starts at 0, ends at the largest k with every position below k completed |
| `RangeSet.Canonical` | msquic-async/src/stream.rs:1204-1207 | two coalesced sets of the same positions are the same list, so the order of completions never shows |
| `StreamTypes.LossIsTheReason` | msquic-async/src/stream.rs:1503-1519 | the first ShutdownComplete makes the connection error what its flags say: closed by the peer, from here, or by the transport |
| `Completion.CursorIsContiguousPrefix` | msquic-async/src/stream.rs:1188-1196 | every position below the cursor is completed, and the cursor itself is not |
| `Completion.RegisterRefines` | msquic-async/src/stream.rs:1197-1227 | one registration adds exactly its range, keeps the cursor maximal, and returns exactly how far it advanced |
| `Completion.ReportsExactlyWhen` | msquic-async/src/stream.rs:1207-1226 | a positive length is returned exactly when the prefix grew, a zero exactly for an exhausted FIN buffer at the cursor, or for any one while nothing is recorded |
| `Completion.RegisterAllRefines` | msquic-async/src/stream.rs:1197-1227 | over any series of registrations the set is their union and the returned lengths sum to the cursor |
| `Completion.AnyOrderReportsEverything` | msquic-async/src/stream.rs:1197-1227 | whatever order N bytes are released in, exactly N are reported |
| `RecvBuffer.StreamRecvBuffer.constructor` | msquic-async/src/buffer.rs:31-56 | a new buffer stands for the concatenation of its segments, at position 0, tied to no stream |
| `RecvBuffer.StreamRecvBuffer.SetStream` | msquic-async/src/buffer.rs:58-69 | the buffer is tied to the stream and nothing else about it changes; what that means for its drop is `StreamInner.StreamInnerExclusive.Drop` |
| `RecvBuffer.StreamRecvBuffer.Len` | msquic-async/src/buffer.rs:72-82 | the length is that of the unread bytes; neither the u32 sum nor the subtractions wrap |
| `RecvBuffer.StreamRecvBuffer.IsEmpty` | msquic-async/src/buffer.rs:85-87 | empty exactly when nothing is unread |
| `RecvBuffer.StreamRecvBuffer.AsSliceUptoSize` | msquic-async/src/buffer.rs:90-99 | a prefix of the unread bytes, as long as the segment and the size allow |
| `RecvBuffer.StreamRecvBuffer.GetBytesUptoSize` | msquic-async/src/buffer.rs:102-120 | the bytes returned are a prefix of the unread ones and the position moves by their number; None exactly with no segment left |
| `RecvBuffer.StreamRecvBuffer.Advance` | msquic-async/src/buffer.rs:146-162 | skips exactly that many bytes across any segmentation |
| `RecvBuffer.StreamRecvBuffer.ChunkSlice` | msquic-async/src/buffer.rs:164-166 | the whole rest of the segment under the cursor, a prefix of the unread bytes |
| `RecvBuffer.StreamRecvBuffer.ChunksVectored` | msquic-async/src/buffer.rs:172-187 | the slices concatenate to a prefix of the unread bytes, and to all of them given enough slots |
| `RecvBuffer.StreamRecvBuffer.ChunkNonEmpty` | msquic-async/src/buffer.rs:164-170 | with no empty segment, the chunk is non-empty exactly while something remains |
| `RecvBuffer.StreamRecvBuffer.CursorInBounds` | msquic-async/src/buffer.rs:90-120 | the two-level cursor never points past the data |
| `Receive.DrainAfterPart` | msquic-async/src/stream.rs:649-661 | copying a part of the front buffer first, segment by segment, ends where one copy ends |
| `Receive.DrainTies` | msquic-async/src/stream.rs:649-661 | a copying read ties to the stream every buffer it pops and no buffer it leaves |
| `Receive.UntiedDropsDoNothing` | msquic-async/src/buffer.rs:190-203 | dropping buffers that are tied to no stream changes no account and tells MsQuic nothing |
| `ReceiveRuns.DrainTakesFront` | msquic-async/src/stream.rs:637-731 | a copying read takes the front of the unread bytes, as many as wanted or all, and leaves the rest unread in order |
| `ReceiveRuns.DrainKeepsBuffers` | msquic-async/src/stream.rs:649-661 | a copying read pops only exhausted buffers, and neither loses nor duplicates one |
| `ReceiveRuns.StepKeeps` | msquic-async/src/stream.rs:637-1531 | every poll, drop and event, the combined start and accept indication among them, keeps the invariants that tie queue, held buffers, accounting, delivery, FIN and waiters together |
| `ReceiveRuns.ReclaimSafety` | msquic-async/src/stream.rs:1188-1227 | in every run, no byte of a buffer still queued or held is inside the prefix MsQuic was told to reclaim |
| `ReceiveRuns.RegisteredAtMostOnce` | msquic-async/src/stream.rs:1466-1500 | each buffer is completed at most once over its own drop, the shutdown sweep and the drop of what was swept, and never while it is queued or held, because exactly the held buffers are tied to the stream |
| `ReceiveRuns.AllReleasedAllReported` | msquic-async/src/stream.rs:1107-1131 | the calls to MsQuic and the bytes withheld sum to the cursor, and nothing is withheld unless the stream completed during an application close; once all buffers are released the cursor is every byte received, and without such a close the calls alone sum to it |
| `ReceiveRuns.AppCloseSilences` | msquic-async/src/stream.rs:1493-1496 | when the stream completes during an application close MsQuic is not called, neither by the sweep nor in any continuation |
| `ReceiveRuns.FinOnlyDrop` | msquic-async/src/stream.rs:1211-1226 | the drop of an empty FIN buffer reports a zero length exactly if all bytes before it are released or none is, and moves nothing |
| `ReceiveRuns.FinReportedEarly` | msquic-async/src/stream.rs:1221-1222 | a run that reports the end of the stream while the byte before it is still held |
| `ReceiveRuns.FinNeverReported` | msquic-async/src/stream.rs:1212-1220 | a run that releases every buffer and never reports the end of the stream |
| `ReceiveRuns.ExactDelivery` | msquic-async/src/stream.rs:637-791 | bytes delivered in lock order followed by the queued rest are the bytes received, up to what the shutdown sweep discards |
| `ReceiveRuns.GracefulCloseLosesNothing` | msquic-async/src/stream.rs:1383-1396 | when the peer's graceful close is indicated every byte up to the final size has been delivered |
| `ReceiveRuns.StillToDeliver` | msquic-async/src/stream.rs:737-791 | on an open half, the bytes still to be delivered are exactly the queued ones |
| `ReceiveRuns.ReadAnswers` | msquic-async/src/stream.rs:744-772 | a half is open exactly if it is readable, has not ended, and its end has not been read; every other read, copying or not, answers what the history of indications says: the loss of the connection, else the cancellation, else the code of the last abort of the peer, else the end, and parks only while the start is under way |
| `ReceiveRuns.PollAbortAnswers` | msquic-async/src/stream.rs:1050-1089 | the whole effect of a polled abort in the same terms: it ends and wakes an open half, waits for the start, reports why a half has ended |
| `ReceiveRuns.AbortAnswers` | msquic-async/src/stream.rs:1091-1105 | `abort_read` succeeds exactly on an open half if MsQuic takes it; a failure names its cause and changes nothing |
| `ReceiveRuns.ReachableHistory` | msquic-async/src/stream.rs:1296-1412 | in every run the recorded status, cancellation, code and connection error are those last indicated, and the state of the half is determined by what has happened |
| `ReceiveRuns.ReadIsExact` | msquic-async/src/stream.rs:637-714 | a read into a non-empty destination gets the next bytes; 0 only when FIN came and all is delivered; the half ends exactly when FIN came and the destination was larger than the rest |
| `ReceiveRuns.ZeroMeansTheEnd` | msquic-async/src/stream.rs:637-714 | `poll_read` answers 0 for a non-empty destination, and `poll_read_buf` succeeds with nothing added, exactly at a clean end of the stream; both fail exactly when the history of indications gives a reason, and with that reason |
| `ReceiveRuns.ReadOfNothing` | msquic-async/src/stream.rs:645-648 | a read into an empty destination returns 0 and changes nothing, even at the end of the stream |
| `ReceiveRuns.ReadChunkIsExact` | msquic-async/src/stream.rs:716-731 | a chunk read hands over the front buffer, ends the half exactly with the FIN buffer, and parks its task exactly on an empty queue |
| `ReceiveRuns.NoReaderSleepsOnData` | msquic-async/src/stream.rs:774-788 | a reader parked for data means an empty queue, no FIN, and an open half, outside `abort_read`; readers parked on the start are the subject of `ReceiveRuns.StartersSleepOn` |
| `ReceiveRuns.ReaderWouldSleepOn` | msquic-async/src/stream.rs:774-788 | polled again, a reader parked for data would park again with nothing changed |
| `ReceiveRuns.StartersSleepOn` | msquic-async/src/stream.rs:744-772 | whoever is parked on the start waits for an indication still to come; a read and an abort of a bidirectional stream would park again exactly while the peer's side has not ended |
| `ReceiveRuns.WhatWakesStarters` | msquic-async/src/stream.rs:1323-1329 | the start list is drained exactly by the acceptance of the stream, the stream limit and ShutdownComplete, and once the half has ended early by ShutdownComplete alone |
| `ReceiveRuns.SleepingStartersExist` | msquic-async/src/stream.rs:1398-1412 | a run that leaves a read and an abort parked on the start although both answers are known |
| `ReceiveRuns.AbortReadStrandsExactlyTheParked` | msquic-async/src/stream.rs:1091-1105 | `abort_read` leaves a reader parked exactly when one was; `poll_abort_read` never does |
| `ReceiveRuns.StrandedReaderExists` | msquic-async/src/stream.rs:1091-1105 | a run that leaves a reader parked on a closed half |
| `ReceiveRuns.ReadAndAbortDiffer` | msquic-async/src/stream.rs:1075-1085 | on an ended half a read and a polled abort answer differently exactly when the end of the stream was read, or when only a cancellation on loss explains the end |
| `ReceiveRuns.CancelledAbortSucceeds` | msquic-async/src/stream.rs:1075-1085 | a run of a stream cancelled on loss, of which a read says so while aborting it reports success |
| `StreamInner.StreamInnerExclusive.RegisterReadComplete` | msquic-async/src/stream.rs:1197-1227 | the in-place registration does what the accounting says |
| `StreamInner.StreamInnerExclusive.ReadComplete` | msquic-async/src/stream.rs:1107-1131 | registers the whole range of the buffer and nothing else |
| `StreamInner.StreamInnerExclusive.Drop` | msquic-async/src/buffer.rs:190-203 | the drop of a buffer completes it and unties it exactly if it is tied to the stream |
| `StreamInner.StreamInnerExclusive.DropBuffers` | msquic-async/src/buffer.rs:190-203 | dropping a list of buffers is dropping them one by one, front first, however each is tied |
| `StreamInner.StreamInnerExclusive.SweepQueue` | msquic-async/src/stream.rs:1466-1500 | the sweep completes the queued buffers front first, empties the queue, then drops what it took |
| `StreamInner.StreamInnerExclusive.TakeFrom` | msquic-async/src/stream.rs:649-661 | the copying loop terminates and takes what the queue's meaning says, from the front |
| `StreamInner.StreamInnerExclusive.PollRead` | msquic-async/src/stream.rs:637-673 | the bytes land at the start of the destination, the rest of it is untouched, and the new state is that of the value-level read |
| `StreamInner.StreamInnerExclusive.PollReadBuf` | msquic-async/src/stream.rs:675-714 | the same behind what the destination already holds; a full destination returns at once |
| `StreamInner.StreamInnerExclusive.PollReadChunk` | msquic-async/src/stream.rs:716-731 | the front buffer is handed over whole and tied to the stream |
| `StreamInner.StreamInnerExclusive.HandleEventReceive` | msquic-async/src/stream.rs:1333-1363 | the buffer is queued at the end and every reader woken |
| `StreamInner.StreamInnerExclusive.HandleEventShutdownComplete` | msquic-async/src/stream.rs:1446-1535 | undelivered buffers are completed front first through the same accounting and then dropped, once; both halves end, the loss is recorded |
| `StreamInner.StreamInnerExclusive.HandleEventStartComplete` | msquic-async/src/stream.rs:1296-1331 | records the start status, accepts the stream if the peer already has, and wakes the starters in that case and at the stream limit |
| `StreamInner.StreamInnerExclusive.PollStart` | msquic-async/src/stream.rs:111-174 | starts once, parks until indicated, and maps the recorded status |
| `StreamInner.StreamInnerExclusive.PollWrite` | msquic-async/src/stream.rs:883-954 | takes a pooled buffer, fills it, sends it, and blanks and pools it again if the send is refused |
| `StreamInner.StreamInnerExclusive.HandleEventSendComplete` | msquic-async/src/stream.rs:1365-1381 | the returned buffer is blanked and pooled |
| `WriteBuffers.WriteBuffer.GetBuffers` | msquic-async/src/buffer.rs:243-254 | one entry per borrowed chunk, or one for the copied bytes |
| `WriteBuffers.WriteBuffer.Reset` | msquic-async/src/buffer.rs:260-264 | nothing is left in the buffer |
| `WritePool.AttemptKeeps` | msquic-async/src/stream.rs:917-952 | a send attempt keeps each buffer in exactly one place, idle ones blank, and allocates only when all are in flight |
| `WritePool.ReturnKeeps` | msquic-async/src/stream.rs:1376-1379 | so does a returned buffer |
| `WritePool.HandsOverExactly` | msquic-async/src/buffer.rs:233-254 | MsQuic is handed exactly the caller's bytes, never those of an earlier send |
| `SendRuns.StepKeeps` | msquic-async/src/stream.rs:883-1048 | every write, finish, abort, start and event, the combined start and accept indication among them, keeps ownership, the byte account, the end of the half and the waiters consistent |
| `SendRuns.SentEqualsAccepted` | msquic-async/src/stream.rs:883-954 | in every run the bytes of successful native sends are the arguments of the writes that returned Ok, and the counts sum to their length |
| `SendRuns.WriteIsAllOrNothing` | msquic-async/src/stream.rs:921-952 | a write returns Ok with the whole length after one native send, which carries the FIN and closes the half exactly if asked to, or puts nothing on the wire |
| `SendRuns.WriteAnswers` | msquic-async/src/stream.rs:883-954 | the answer of a write in every reachable state, told from the history: waiting for the start, taken whole, refused by MsQuic, or why there is nothing to write to |
| `SendRuns.CloseAnswers` | msquic-async/src/stream.rs:956-1034 | the whole effect of a finish and of a polled abort in the same terms; they differ in the cancellation alone |
| `SendRuns.PendingIsParked` | msquic-async/src/stream.rs:970-1009 | a finish or abort answers Pending exactly while an answer is still to come, and then its task is on the start list or among the finishers; nobody is taken off |
| `SendRuns.AbortAnswers` | msquic-async/src/stream.rs:1036-1048 | `abort_write` succeeds exactly on an open half if MsQuic takes it; a failure names its cause and changes nothing |
| `SendRuns.StartAnswers` | msquic-async/src/stream.rs:111-174 | a start is made once, parks its task until the stream is accepted or completes, and then reports exactly the outcome last indicated: accepted, the limit, the connection lost with that error, that status, or a panic |
| `SendRuns.ReachableHistory` | msquic-async/src/stream.rs:1296-1444 | in every run the records are those last indicated, and the life of the stream and the state of its send half are determined by what has happened |
| `SendRuns.NothingSentAfterTheEnd` | msquic-async/src/stream.rs:893-914 | after an accepted FIN, finish or abort, or the end of the half, no continuation makes a native send |
| `SendRuns.BuffersOwnedOnce` | msquic-async/src/stream.rs:917-952 | every buffer is idle or in flight, idle ones are blank, and allocation never exceeds the peak in use |
| `SendRuns.FinisherParked` | msquic-async/src/stream.rs:956-1034 | a parked finisher waits for an end still to come, or was left by ShutdownComplete, which takes nobody off the list |
| `SendRuns.StartersSleepOn` | msquic-async/src/stream.rs:149-173 | whoever is parked on the start waits for an indication still to come; a start polled again parks again, and a write, a finish and an abort do exactly while the send half has not ended |
| `SendRuns.WhatWakesStarters` | msquic-async/src/stream.rs:1323-1329 | the start list is drained exactly by the acceptance of the stream, the stream limit and ShutdownComplete, and once the half has ended early by ShutdownComplete alone |
| `SendRuns.SleepingStartersExist` | msquic-async/src/stream.rs:1414-1444 | a run that leaves a write and a finish parked on the start although their answers are known |
| `SendRuns.StrandedFinisherExists` | msquic-async/src/stream.rs:1522-1529 | a run that leaves a finisher parked on a completed stream |
| `SendRuns.FinishAndAbortDiffer` | msquic-async/src/stream.rs:1014-1030 | finish and abort answer differently exactly when only a cancellation on loss explains the end |
| `SendRuns.CancelledAbortSucceeds` | msquic-async/src/stream.rs:1014-1030 | a run of a stream cancelled on loss, after which finishing says so and aborting reports success |
| `SendRuns.StartPanicsExactlyWhen` | msquic-async/src/stream.rs:150-170 | `poll_start` panics exactly on an aborted start without a connection error, or on a failed one whose status has no name |
| `SendRuns.StartCanPanic` | msquic-async/src/stream.rs:150-170 | a run from a started stream, over either failure of the start and the completion of the stream, to that state |
| `Rundown.StepKeeps` | msquic-async/src/registration.rs:45-77 | every atomic step keeps the counter exact, the slots private, and every waiting future's waker tracked |
| `Rundown.NoLostWakeup` | msquic-async/src/registration.rs:59-76 | with the count at zero and no drop half done, every future that returned Pending has been woken, also after the count rose again from zero |
| `Rundown.EveryWakeupArrives` | msquic-async/src/registration.rs:59-76 | from any state with a zero count, the drops under way alone reach a state with everyone woken |
| `Rundown.CounterIsExact` | msquic-async/src/registration.rs:46-65 | the counter is the number of live guards, so no decrement underflows |
| `Rundown.SlotsArePrivate` | msquic-async/src/registration.rs:204-210 | every table entry belongs to exactly one live future; a dropped future leaves none |
| `Rundown.RecheckIsNeeded` | msquic-async/src/registration.rs:235-243 | a run in which only the second load saves the future from sleeping for ever |
| `Rundown.PendingIsCovered` | msquic-async/src/registration.rs:212-244 | whatever guards and futures of other threads do between the atomic operations of the poll, a Pending answer saw a non-zero count last, and the waker is in the future's own slot or woken by a drain that came after the insert |
| `Rundown.ReadyLeavesNothing` | msquic-async/src/registration.rs:204-221 | under the same interference a poll answers Ready exactly if it saw zero at one of the two loads, and then leaves no slot |
| `Rundown.StaysOrIsWoken` | msquic-async/src/registration.rs:59-76 | an inserted waker survives any operations of others on their own slots, or one of the drains among them woke it |
| `Rundown.ZeroBeforeTheInsert` | msquic-async/src/registration.rs:222-243 | with the count at zero before the insert, drained before or after it, the second load answers Ready and the table is empty |
| `Rundown.PollIsItsSteps` | msquic-async/src/registration.rs:212-244 | the undisturbed poll is the composition of its atomic steps |
| `Rundown.DropGuard` | msquic-async/src/registration.rs:58-77 | a guard drop hands the whole table, as it is after what others did since the decrement, to its caller to wake exactly if it took the count to zero |
| `Rundown.WaitIdle.Poll` | msquic-async/src/registration.rs:215-244 | the poll with its early return, reused slot and second load, under arbitrary interference between its atomic operations, does what the value-level poll says |
| `RundownHandles.StepKeeps` | msquic-async/src/connection.rs:957-967 | for every field order that drops the guard last: opening, adopting, queueing, accepting, cloning, dropping references, fields, closures and queues keep the reference counts, the family of handles and the guards consistent |
| `RundownHandles.NeverBlocked` | msquic-async/src/registration.rs:46-49 | the counter never refuses a guard step that the state of the handle allows |
| `RundownHandles.ZeroMeansAllClosed` | msquic-async/src/registration.rs:26-30 | while the count is zero no tracked handle is open, being opened, being set up, or queued |
| `RundownHandles.CountIsGuardedHandles` | msquic-async/src/registration.rs:26-30 | the count is the number of handles that hold a guard |
| `RundownHandles.ResolvesOnlyWhenClosed` | msquic-async/src/registration.rs:152-168 | `wait_idle` resolves only from a load at an instant at which every handle was closed |
| `RundownHandles.ReleaseFollowsClose` | msquic-async/src/connection.rs:957-967 | a guard is dropped only after the native Close returned and the last reference to `Inner` took the queue along, with no child living under the handle; or the native handle never existed |
| `RundownHandles.EveryHandleCovered` | msquic-async/src/listener.rs:359-375 | an open handle holds its own guard, or is being set up by a callback of a handle that does |
| `RundownHandles.GuardLastExactly` | msquic-async/src/stream.rs:599-614 | of the six field orders, exactly the two that drop the guard last never lose it while the handle is open or a child lives under it |
| `RundownHandles.GuardGoesTooEarly` | msquic-async/src/listener.rs:20-29 | a run for each other order: the count is zero with the handle open, or a queued child outlives the guard of its parent |
| `RundownHandles.SourceDropsTheGuardLast` | msquic-async/src/connection.rs:957-967 | the order in which the structs declare their fields is one of the two |
| `RundownHandles.DoneIsChildless` | msquic-async/src/listener.rs:20-29 | an instance whose `inner` and native handle are dropped is closed, its `Inner` is destroyed, and nobody lives under it |
| `RundownHandles.ReleasedAllWakesAll` | msquic-async/src/registration.rs:152-168 | once every handle is released, the drops under way wake every waiting future |
| `Connection.Gate` | msquic-async/src/connection.rs:165-180 | the shared state check answers by the state alone: it parks on the start exactly while connecting, lets only a connected one through, keeps the invariants, and never panics on a settled connection |
| `Connection.PollStart` | msquic-async/src/connection.rs:113-143 | starting parks on the start exactly while that is under way, is done exactly once connected, reports a refusal without a change, and cannot panic |
| `Connection.PollAcceptStream` | msquic-async/src/connection.rs:161-189 | the stream handed out is the front of the queue and the queue loses nothing else; the task is parked exactly on an empty queue, among the acceptors, or on the start |
| `Connection.PollAcceptUniStream` | msquic-async/src/connection.rs:195-221 | the same for unidirectional streams |
| `Connection.PollReceiveDatagram` | msquic-async/src/connection.rs:224-251 | the same for datagrams |
| `Connection.PollSendDatagram` | msquic-async/src/connection.rs:254-284 | a polled send keeps the invariants and answers exactly: parked on the start, disabled, too big, refused, or handed over; without a native call the pool is untouched |
| `Connection.SendDatagram` | msquic-async/src/connection.rs:287-312 | so does the plain send, which parks nobody and calls a connection that is connecting not started |
| `Connection.PollShutdown` | msquic-async/src/connection.rs:315-350 | shutting down records the reason in the same section and parks its task on the shutdown or on the start exactly until the end, cannot panic, and is done exactly after a local shutdown |
| `Connection.ShutdownNow` | msquic-async/src/connection.rs:353-369 | the same without parking; it fails exactly before the connection is connected |
| `Connection.PollEvent` | msquic-async/src/connection.rs:894-918 | the event handed out is the front of the queue; a task is parked exactly on an empty one, among the event waiters, or on the start |
| `Connection.OnPeerStreamStarted` | msquic-async/src/connection.rs:1297-1353 | the stream joins the end of its own queue, exactly that queue's waiters are taken off, and the branch that rejects a unidirectional stream without a read half is never taken |
| `Connection.Halves` | msquic-async/src/stream.rs:182-193 | a stream has the read half unless it is a unidirectional one opened here, and the write half unless it is one of the peer |
| `Connection.TakenExactlyWhen` | msquic-async/src/connection.rs:161-189 | a poll takes from a queue exactly if the queue is non-empty and the connection is connected, or for events connected or shutting down |
| `Connection.LossWakesWhomItUnparks` | msquic-async/src/connection.rs:1204-1295 | the shutdown handlers wake exactly the tasks they take off the lists |
| `Connection.ArrivalWakesWhomItUnparks` | msquic-async/src/connection.rs:1324-1350 | arriving streams and datagrams wake exactly the tasks they take off the lists |
| `Connection.NewsWakesWhomItUnparks` | msquic-async/src/connection.rs:1196-1201 | so do the connected, datagram-state and address events |
| `ConnectionRuns.StepKeeps` | msquic-async/src/connection.rs:113-369 | every call and event, in any order, keeps reason, waiters, queues, event queue and buffers consistent |
| `ConnectionRuns.LossReasonExists` | msquic-async/src/connection.rs:129-134 | for calls and events in any order, no `expect("error")` ever fails; a connection going down has its reason |
| `ConnectionRuns.WhoSetsTheReason` | msquic-async/src/connection.rs:1269-1272 | the reason after every step: that of the last shutdown indicated, the local one on a shutdown from here, and ShutdownComplete only fills a missing one |
| `ConnectionRuns.WhatMovesTheState` | msquic-async/src/connection.rs:1196-1295 | the state after every step: a start, a shutdown from here and three indications move it, nothing else does |
| `ConnectionRuns.EveryoneLearnsTheReason` | msquic-async/src/connection.rs:339-346 | from the moment the connection is going down every poll but that for events reports the recorded reason, whatever is queued, and after ShutdownComplete that one too; waiting for the shutdown goes on until then, and a local one counts as done |
| `ConnectionRuns.RefusedThoughQueued` | msquic-async/src/connection.rs:171-177 | a run with a stream of each kind, a datagram and an event queued: refused after a local shutdown, the event after ShutdownComplete |
| `ConnectionRuns.NobodyWaitsInVain` | msquic-async/src/connection.rs:1273-1292 | a non-empty waiter list means an empty queue and a state in which the answer can still come; after ShutdownComplete only unidirectional accepts can be parked |
| `ConnectionRuns.SleepersWouldSleepOn` | msquic-async/src/connection.rs:161-189 | a parked task, polled again, would park again without a change, with the two exceptions spelled out |
| `ConnectionRuns.AsleepOnAnAnswer` | msquic-async/src/connection.rs:353-369 | a run in which an accepting and a receiving task sleep through a local shutdown that has settled their answer |
| `ConnectionRuns.WhatWakesThem` | msquic-async/src/connection.rs:1204-1295 | such tasks leave their list exactly when something arrives on their own queue, or a shutdown or its completion is indicated |
| `ConnectionRuns.EventsWakeWhomTheyUnpark` | msquic-async/src/connection.rs:1196-1295 | over any event, the tasks parked before are those parked after plus those woken |
| `ConnectionRuns.CallsParkOnlyTheCaller` | msquic-async/src/connection.rs:141-143 | a call takes nobody off a list and parks at most its own task, on one list |
| `ConnectionRuns.DeliveredInOrder` | msquic-async/src/connection.rs:182-187 | streams, unidirectional streams and datagrams come out once each in order of arrival |
| `ConnectionRuns.CoalescingIsInvisible` | msquic-async/src/connection.rs:1380-1415 | at most one datagram state is queued, the one sends are checked against; a consumer that drains the queue has seen all other events in order and ends with the state of the full log |
| `ConnectionRuns.CoalescingRefines` | msquic-async/src/connection.rs:1391-1410 | overwriting the waiting entry in place keeps the other events, and its meaning is that of appending |
| `ConnectionRuns.DatagramsAreExact` | msquic-async/src/connection.rs:1031-1056 | MsQuic is handed exactly the datagrams whose send returned Ok, and buffers are owned once, blank when idle, and bounded |
| `ConnectionRuns.SendsRespectTheLimit` | msquic-async/src/connection.rs:276-284 | a datagram reaches MsQuic only on a connected connection and within the limit last indicated |
| `ConnectionRuns.OnlyConnectedUndoesShutdown` | msquic-async/src/connection.rs:1196-1201 | a shutdown in progress is undone exactly by a Connected event |
| `ConnectionRuns.ForgottenShutdown` | msquic-async/src/connection.rs:65-95 | a run of an accepted connection in which that happens |
| `ConnectionRuns.UniWaitersStay` | msquic-async/src/connection.rs:1218-1229 | tasks waiting for a unidirectional stream leave the list exactly when one arrives |
| `ConnectionRuns.WhoIsLeftAtTheEnd` | msquic-async/src/connection.rs:1273-1292 | ShutdownComplete leaves someone parked exactly when a task waited for a unidirectional stream |
| `ConnectionRuns.StrandedUniAccept` | msquic-async/src/connection.rs:1273-1292 | a run that ends with such a task |
| `ConnectionInner.ConnectionInnerExclusive.SendNow` | msquic-async/src/connection.rs:1031-1056 | fills a pooled buffer with the datagram alone; a refused buffer is blanked and pooled |
| `ConnectionInner.ConnectionInnerExclusive.Coalesce` | msquic-async/src/connection.rs:1391-1410 | the search loop overwrites the entry still waiting, or appends |
| `ConnectionInner.ConnectionInnerExclusive.HandleEventShutdownComplete` | msquic-async/src/connection.rs:1257-1295 | keeps the first reason; the tasks woken are exactly those taken off the lists, and the state stays settled |
| `OpenOutbound.OpenPanicsExactlyWhen` | msquic-async/src/connection.rs:2169-2216 | a poll panics exactly on a connected connection whose opened stream was reported aborted without a connection error or failed without a name, or when the future is polled after it resolved |
| `OpenOutbound.OpenKeepsTheStream` | msquic-async/src/connection.rs:2198-2216 | on a connected connection the native stream is opened at once; it is in the future or in the answer, never both, never lost; it is handed over exactly once its start has succeeded, and whoever waits is parked on the connection or on the stream |
| `OpenOutbound.OpenAnswers` | msquic-async/src/connection.rs:2181-2209 | every failure names its cause: the connection not started or lost, the native open refused, or the start of the stream failed with that error |
| `OpenOutbound.OpensAtMostOnce` | msquic-async/src/connection.rs:2198-2209 | over any series of polls, whatever happens to connection and stream in between, at most one native stream is opened and at most one is handed over, the one that was opened |
| `OpenOutbound.AbortedStartPanics` | msquic-async/src/connection.rs:2210-2214 | a run of the opened stream after which the second poll panics on a connection that is up |
| `OpenOutbound.OpenOutboundStream.Poll` | msquic-async/src/connection.rs:2169-2216 | the future around a real stream object: gate, open, `poll_start` of that stream, hand over; does what the value-level poll says |
| `Listener.StartNow` | msquic-async/src/listener.rs:64-107 | succeeds exactly if the native start does and the listener is neither running nor stopping; a failure names its cause and changes nothing |
| `Listener.Accept` | msquic-async/src/listener.rs:115-134 | a connection handed out is the front of the queue; Pending exactly on an empty queue of a running or stopping listener, with the task parked; else not started or finished, by the state |
| `Listener.Stop` | msquic-async/src/listener.rs:142-167 | a native stop is asked for exactly by the stop that finds the listener running; Pending exactly until it has stopped, with the task parked; done exactly once stopped |
| `Listener.OnNewConnection` | msquic-async/src/listener.rs:375-380 | the tasks woken are exactly those taken off, and waiting still means an empty queue |
| `Listener.OnStopComplete` | msquic-async/src/listener.rs:383-415 | every parked task is woken and the lists are empty |
| `Listener.StepKeeps` | msquic-async/src/listener.rs:64-167 | every call and event keeps waiters, queue, state and the native listener consistent |
| `Listener.AcceptedInOrder` | msquic-async/src/listener.rs:115-134 | connections come out once each in order of arrival, across restarts; Finished only when all have come out |
| `Listener.FinishedStaysFinished` | msquic-async/src/listener.rs:127-130 | a finished listener stays finished until it is started again |
| `Listener.SleepersWouldSleepOn` | msquic-async/src/listener.rs:132-167 | a parked task, polled again, would park again without a change; accept waiters mean an empty queue and a running listener, stop waiters mean Shutdown |
| `Listener.StopCompletes` | msquic-async/src/listener.rs:142-167 | a stop that is waited for is at most the pending native stop and one StopComplete away from waking everyone |
| `Listener.LateStop` | msquic-async/src/listener.rs:163-165 | a late stop becomes possible by exactly one kind of step: a successful start while a native stop decided earlier has not been called |
| `Listener.LateStopStopsTheWrongSession` | msquic-async/src/listener.rs:163-165 | that stop then ends a session whose state says running: its StopComplete finishes the acceptors |
| `Listener.LateStopHappens` | msquic-async/src/listener.rs:163-165 | a run in which a late stop is possible |
| `H3.Front` | h3-msquic-async/src/lib.rs:515-517 | the chunk is a prefix of the data, empty only if nothing is left |
| `H3.Advanced` | h3-msquic-async/src/lib.rs:527 | advancing drops exactly that many bytes |
| `H3.FlushIsExact` | h3-msquic-async/src/lib.rs:513-536 | for any pattern of pending, partial and failed writes, accepted bytes followed by the rest are the data; the stream is in one place; it is away exactly after Pending |
| `H3.FlushAnswers` | h3-msquic-async/src/lib.rs:524-533 | the last write polled decides: its error is the answer, Pending means that it is not done, and all before it took something |
| `H3.FlushTerminates` | h3-msquic-async/src/lib.rs:515-533 | with positive counts the loop runs at most once per remaining byte, and once more |
| `H3.WritesTakeSomething` | h3-msquic-async/src/lib.rs:516-522 | a successful write of this crate's stream takes the whole, non-empty chunk |
| `H3.StepKeeps` | h3-msquic-async/src/lib.rs:513-609 | giving data, flushing it and unframed sends keep the account of bytes and the place of the stream |
| `H3.ExactlyOnce` | h3-msquic-async/src/lib.rs:513-609 | over every run, everything given is accepted once and in order, but for the unsent rest, and the stream is in one place |
| `H3.PanicsOnlyMidWrite` | h3-msquic-async/src/lib.rs:539-550 | the stream that finishing, resetting and asking for the id unwrap is missing exactly after a poll_ready that answered Pending, and no other call changes that |
| `H3.MidWritePanics` | h3-msquic-async/src/lib.rs:539-550 | a run that ends in the middle of a write |
| `H3.PollSendPanicsExactlyWhen` | h3-msquic-async/src/lib.rs:592-601 | `poll_send` panics exactly while data is held: from `send_data` until a poll_ready succeeds |
| `H3.PollSendAnswers` | h3-msquic-async/src/lib.rs:597-609 | an unframed send answers what the write answers, and takes that much of the front of the data |
| `H3.FailureKeepsTheData` | h3-msquic-async/src/lib.rs:553-568 | new data is taken exactly when the last flush succeeded |
| `H3.FailedWriteBlocks` | h3-msquic-async/src/lib.rs:528-531 | a run with a failed write, after which new data is refused and `poll_send` panics |
| `H3.SendStream.PollReady` | h3-msquic-async/src/lib.rs:513-536 | the resumable loop with its take and put back does what the value-level flush says |
| `H3.FilterDropsNoByte` | h3-msquic-async/src/lib.rs:418-438 | the filter hides no byte and ends the body exactly at an empty final chunk or at no chunk; a failed read is reported with its error, and only a read under way is waited for |
| `H3.BodyIsExact` | h3-msquic-async/src/lib.rs:418-438 | over any series of polls each hands over exactly the bytes of its read, fails exactly if that failed, and ends the body exactly at a clean end of the stream |
| `H3.RecvStream.PollData` | h3-msquic-async/src/lib.rs:418-438 | the stream is away exactly while a chunk read is pending |
| `H3.RecvPanicsExactlyWhen` | h3-msquic-async/src/lib.rs:441-453 | the stream that `stop_sending` and `recv_id` unwrap is missing exactly after a poll_data that answered Pending, and otherwise it is the one they started with |

## Left out

- The MsQuic FFI, raw pointers, and the `set_param`/`get_param` wrappers (addresses, paths, statistics): only MsQuic's promises are modelled, as guards on its steps.
- The `rangemap` crate is not part of this model: `RangeSet` restates the coalescing insert it offers and proves what the accounting relies on.
- Memory orderings weaker than sequential consistency, fences, and mutex poisoning: a locked block or an atomic operation is one step.
- Native memory: a segment is the bytes it holds, so the model shows when memory may be reclaimed, not that a pointer is dereferenced in bounds.
- Integer widths other than the u32 sum of segment lengths, which is modelled with wrap-around: offsets, counters and slot keys are unbounded.
- `SendRuns.StartCanPanic`: whether MsQuic ever completes a stream without a connection error after reporting its start aborted is outside the model.
- `SendRuns.StrandedFinisherExists`: whether MsQuic can indicate ShutdownComplete with no earlier end of the send half is outside the model.
- `SendRuns.SleepingStartersExist`: whether MsQuic ends the send half of a stream before the peer accepts it is outside the model.
- `ReceiveRuns.SleepingStartersExist`: the same of the peer's side.
- `H3.PanicsOnlyMidWrite`: the id itself, which `send_id` expects to be there and to be valid, comes from MsQuic when no start indication has recorded it; only the unwrap of the stream is stated.
- `H3.RecvPanicsExactlyWhen`: the same of `recv_id`.
- `Listener.LateStopHappens`: it takes a StopComplete that the pending stop did not ask for, as from the shutdown of the whole registration.
- `Listener.OnNewConnection`: starts where the configuration has been applied; the earlier error returns only matter for guards and are the Reject step of `RundownHandles`.
- `Connection.OnNotice`: address and path indications differ only in the payload, which is an identity here.
- TLS key logging, certificate callbacks, and certificate and key files: no part of the protocol.
- Error conversions, `Display` texts and tracing: single-branch mappings.
- The forwarding methods of `Stream`, `ReadStream` and `WriteStream`, and the tokio, futures-io and h3 connection traits: they only forward.
- Executors: a woken task is assumed to be polled again, nothing is proved about when.
