# Verification of the emulator's asynchronous I/O, console and start-up parsing

This project models five stateful cores of the Android emulator and proves what each of them is for.
Every core is modelled twice: as functions on values, about which the theorems are proved, and as
classes and methods that update memory step by step as the C code does, each proved to compute what
those functions say.

**The asynchronous socket engine** (`async-socket.c`). A socket has two linked queues of
reference-counted I/O descriptors, a recycler for descriptors, a timer for each descriptor, and a
client whose callbacks answer DONE, ABORT or RETRY. `AsyncSocketSpec` and `AsyncSocketSteps` say what
one looper callback or client call does. The client is a tape of decisions: inside a callback it may
queue I/O, take and drop references to the socket and to any descriptor that is alive, and stop timers,
before it answers. The kernel's answers, the timers and the reports of connectors are the events of a
run; a connector reports as long as it was not told to stop, whether or not the socket is still there.
`AsyncSocketInvariant`, `AsyncSocketCallbacks`, `AsyncSocketCancel` and `AsyncSocketSafety` prove an
invariant through all re-entrant calls, and `AsyncSocketTheorems` and `AsyncSocketOrphans` state what
follows for all runs; `AsyncSocketOutcomes` says which bytes are moved, what is told and whether there is
a connection, and `AsyncSocketAccounts` what callbacks do, both from the answers of the client and the
kernel; `AsyncSocketRuns` has the runs that show that their conditions cannot be dropped.
`AsyncSocketQueue` and `AsyncSocket` are the linked lists, the recycler and the socket itself on the heap.

What the client promises: lengths of transfers are positive; it calls with a reference in hand, and drops
only references that it has; it makes no second connection while there is one; it does not connect,
disconnect or reconnect from inside a callback. Three more promises keep it from harm. They are not
assumed: the model lets a client break them, and the exact consequence is stated.

- It does not drop its last reference while an attempt to connect is pending.
- It queues nothing when it hears of a connection that it then discards.
- It queues no reader from a callback of the loop that cancels its writers when it disconnects, or when
  the connection is lost and it does not ask for another one.

**The socket connector** (`async-socket-connector.c`). Attempts, retries, the timer, the reference
count, and the hand-over of the file descriptor to the socket. `ConnectorSpec` numbers descriptors and
watches in order of creation, so that "closed once" and "freed twice" can be said; a use of freed memory
ends a run and is recorded. `ConnectorTheorems` is about who owns what, `ConnectorOutcomes` about what the
client is told and who gets the descriptor.

**The resumable readers and the console connector** (`async-utils.c`, `async-console.c`). A script says
everything the kernel will answer to recv: bytes in pieces, waits, an error, the end. Outcomes are shown
to depend only on the bytes and on how the stream ends.

**Boot properties** (`boot-properties.c`). The list with its pointer to the tail cell, the text that is
split in place while it is saved, and the snapshot format.

**Options and debug tags** (`cmdline-option.cpp`). Argument vectors compacted in place, list options
reversed in place, and the language of debug tags; `CmdlineOptionTheorems` describes command lines by what
they ask for. The option table is arbitrary: distinct names with
underscores, shorter than 64, among them one for `@name`.

**Console sessions** (`console.cpp`). Framing with a buffer that wraps, the walk of the command tree over
memory with stale bytes, authentication, CR insertion on output, and the redirection table.
`ConsoleSessionTheorems` says what a line does by a path into the command tree, and what a session runs by
its lines and tokens.

## What was found

- A connector keeps a pointer to the socket and takes no reference, and destroying the socket does not
  stop it. A connector event takes a reference to a destroyed socket exactly when the last reference went
  while an attempt was pending (`AsyncSocketTheorems.StruckExactly`; `Struck` is a run). Nothing else reaches
  a destroyed socket (`DestroyedForGood`). `_sdkctl_socket_free` (sdk-controller-socket.c:1797-1817)
  disconnects and releases its socket without a look at a pending attempt.
- Closing a connection may leave I/O queued, and the looper does not watch the next connection for it.
  This happens exactly where the client is careless (`AsyncSocketOrphans.StrandedExactly`): when it
  disconnects (`DisconnectStrands`) or loses the connection (`LostStrands`) and queues a reader while its
  writers are cancelled, and when it discards a connection on which it queued something
  (`DiscardStrands`). What was left is watched for only once more of its kind is queued (`MissedExactly`).
  `AsyncSocketRuns.LostWakeUp` and `LostByDiscarding` are runs.
- An I/O queued on a disconnected socket fails at once, and ends whatever the client answers, RETRY
  included. A descriptor ended by ABORT or refusal keeps its timer; a client that kept a reference to it
  may still hear one TIMED_OUT, and nothing else, before FINISHED (`AsyncSocketRuns.LateTimeOut` is a run).
- A connector is used after it was freed when its client answers DONE to STARTED, or answers DONE to
  CONTINUES or RETRYING and the attempt then ends and is not to be retried
  (`ConnectorTheorems.MisusedExactly`; `Misused` is a run). A client that goes on or aborts instead is safe.
  Both hold with the logging of `asconnector` off: with it on, the message after an ABORT of STARTED reads
  the descriptor of a connector that was freed.
- When a retry cannot create a socket, the connector frees again the watch of an attempt that ended
  before (`ConnectorTheorems.DoubleFreeExactly`, `DoubleFree`).
- The header of `cmdline-option.h` promises -1 for an unknown option; the code returns 0 and leaves the
  option on the command line, and returns -1 only for `-debug` without tags. The model follows the code.
- Items of fewer than two characters in a list of debug tags are skipped, a detail the header leaves out.

## Model

| member | source | states |
|---|---|---|
| AsyncSocketTheorems.EveryIoEndsOnce | android-emu/android/async-socket.c:554-634 | In every run each queued I/O has exactly one ending, then one FINISHED, then nothing; STARTED comes once and before every CONTINUES; SUCCEEDED only when everything was transferred; what is alive and not kept by the client is still queued and has not ended. |
| AsyncSocketTheorems.ReferencesAreCounted | android-emu/android/async-socket.c:207-226 | Between callbacks a socket's count is client references plus live descriptors, a descriptor's is one for its queue plus client references, and it is alive exactly above zero; the socket is destroyed exactly at zero. |
| AsyncSocketTheorems.LastDropIsSilent | android-emu/android/async-socket.c:1182-1193 | When the client drops the last reference both queues are empty, and destroying the socket calls no callback and changes no descriptor. |
| AsyncSocketTheorems.DestroyedForGood | android-emu/android/async-socket.c:708-726 | On a destroyed socket exactly the reports of connectors that were not told can happen, and each of them fails at its first step, taking a reference. |
| AsyncSocketTheorems.StruckExactly | android-emu/android/async-socket.c:1070-1104 | In a run an assertion on a reference count fails if and only if the last reference went while an attempt was pending and a connector reported after that. |
| AsyncSocketTheorems.Struck | android-emu/android/async-socket.c:1196-1209 | A concrete run: connect, hear of the start, drop the reference, and the connector reports. |
| AsyncSocketTheorems.NoLostWakeUp | android-emu/android/async-socket.c:669-701 | While anything in a queue was queued on the current connection the looper watches for it; with nothing left from before, a connected socket with queued readers (writers) is watched for reading (writing), and a disconnected one has none queued. |
| AsyncSocketOutcomes.BytesAreConserved | android-emu/android/async-socket.c:805-1027 | No byte is lost, repeated or reordered: the transferred slices of the buffers, in queue order, concatenate to what the accepted outcomes of recv and send moved since the connection was made; only the head of a queue has moved anything; transferred never exceeds the size. |
| AsyncSocketOutcomes.ConnectionMoves | android-emu/android/async-socket.c:836-906 | In every run the bytes that went over the connection are, one after the other, the first bytes of each outcome for which there was room, of events that were not aborted, since the connection was made; and the attempts that are to report are counted. |
| AsyncSocketOutcomes.ReadyServes | android-emu/android/async-socket.c:805-911 | For every answer of the client and the kernel: exactly the first bytes received, as many as there is room for, are stored behind those that are there, or the next bytes of the buffer are sent; the callback hears STARTED once or CONTINUES, then FAILED for an error, SUCCEEDED for a full buffer, CANCELLED if the connection is lost, and its timer is off then, and nothing else. |
| AsyncSocketOutcomes.ReadySucceeds | android-emu/android/async-socket.c:1036-1058 | A try lets writing go on, and finds the connection lost, exactly by the client's answer and by whether the kernel moved anything. |
| AsyncSocketOutcomes.ReadyRests | android-emu/android/async-socket.c:508-524 | After a try that finds the connection alive, interest is on only if something is queued. |
| AsyncSocketOutcomes.TimedOutTells | android-emu/android/async-socket.c:277-291 | A descriptor whose timer expires hears TIMED_OUT with its progress, and FINISHED if that was its end; its timer is off and its buffer as it was. |
| AsyncSocketOutcomes.EnqueueTells | android-emu/android/async-socket.c:1234-1263 | A new I/O is last in its queue with its buffer, a running timer and interest on, and has heard nothing; without a connection it hears FAILED and, unless it is kept, FINISHED, and is in no queue. |
| AsyncSocketOutcomes.StepLine | android-emu/android/async-socket.c:691-778 | What every event does to the connection, the reconnection timer, the number of attempts and the bytes moved, from the client's answers: lost or given up, closed; asked for again, the timer runs. |
| AsyncSocketOutcomes.ConnectedExactly | android-emu/android/async-socket.c:1070-1119 | In a run there is a connection if and only if one was made that the client was done with, none since was cut, and the socket lives; the reconnection timer runs if and only if the client asked for another connection after that. |
| AsyncSocketAccounts.CallbackDoes | android-emu/android/async-socket.c:207-226 | A callback, however deeply others nest in it, takes and drops exactly the references the client decided to take and drop, on the socket and on every descriptor in use, stops exactly the timers it decided to stop, and lets each queue grow by what it queued. |
| AsyncSocketAccounts.CallDoes | android-emu/android/async-socket.c:1174-1193 | So does a call of the client. |
| AsyncSocketOrphans.DisconnectStrands | android-emu/android/async-socket.c:1212-1220 | Disconnecting leaves I/O behind if and only if a reader is queued while the writers are cancelled, and as many as are. |
| AsyncSocketOrphans.LostStrands | android-emu/android/async-socket.c:755-778 | So does the loss of a connection, unless the client answers RETRY. |
| AsyncSocketOrphans.DiscardStrands | android-emu/android/async-socket.c:1084-1096 | A connection that is discarded leaves behind what was queued before or is queued in the callback, and one that is accepted leaves nothing new. |
| AsyncSocketOrphans.StepStrands | android-emu/android/async-socket.c:1036-1119 | With nothing left from before, an event leaves I/O behind if and only if the client is careless in it. |
| AsyncSocketOrphans.StrandedExactly | android-emu/android/async-socket.c:641-701 | In a run something outlives its connection if and only if the client is careless at some time. |
| AsyncSocketOrphans.CarefulIsWoken | android-emu/android/async-socket.c:641-701 | A client that is never careless is watched for whenever it waits, and never waits on a closed connection. |
| AsyncSocketOrphans.MissedExactly | android-emu/android/async-socket.c:1084-1087 | On the next connection the looper watches for what was left if and only if the client queues something of its kind when it accepts. |
| AsyncSocketOrphans.CancelWritersJoins | android-emu/android/async-socket.c:657-666 | While the writers are cancelled, whatever their callbacks set off, the queue of readers grows by exactly the readers the client queues. |
| AsyncSocketRuns.LostWakeUp | android-emu/android/async-socket.c:652-684 | A concrete run in which a reader queued from a writer's CANCELLED waits on the next connection without read interest. |
| AsyncSocketRuns.LostByDiscarding | android-emu/android/async-socket.c:1089-1096 | A concrete run in which one queued on a discarded connection does. |
| AsyncSocketRuns.LateTimeOut | android-emu/android/async-socket.c:277-291 | A concrete run in which an I/O that the client kept and aborted is told TIMED_OUT before FINISHED. |
| AsyncSocketSafety.RunOk | android-emu/android/async-socket.c:1036-1119 | Every run from a new socket keeps the invariant: records, queues, byte logs, counts and wake-ups; only a report to a destroyed socket, with an attempt pending, breaks it. |
| AsyncSocketSafety.StepOk | android-emu/android/async-socket.c:1036-1119 | Every looper callback and client call keeps it, whatever the client's callbacks queue, take, drop and stop, except a report to a socket that is gone; what outlives a connection does so only where one is closed. |
| AsyncSocketSafety.ReadyOk | android-emu/android/async-socket.c:805-911 | Serving a ready queue keeps it, through every answer of the client and every result of recv or send. |
| AsyncSocketSafety.LooperIoOk | android-emu/android/async-socket.c:1036-1058 | An I/O event served for reading and then writing keeps it, and the socket is not destroyed under the callback. |
| AsyncSocketSafety.IoTimedOutOk | android-emu/android/async-socket.c:277-291 | A time-out keeps it, whether the descriptor is first, in the middle, or in no queue. |
| AsyncSocketSafety.ConnectorEventOk | android-emu/android/async-socket.c:1070-1104 | A connection event keeps it on any socket that is not destroyed, whether the connection is kept or discarded. |
| AsyncSocketCallbacks.ClientOk | android-emu/android/async-socket.c:603-612 | A callback in which the client queues I/O and takes or drops references to the socket and to any descriptors keeps the invariant; a descriptor ends in it only if its client had the last reference. |
| AsyncSocketCallbacks.ReleaseIoOk | android-emu/android/async-socket.c:215-226 | So does a release of a descriptor from inside a callback, which may tell FINISHED to another client callback, and the socket outlives it. |
| AsyncSocketCallbacks.NotifyOk | android-emu/android/async-socket.c:554-563 | A notification adds one note, with the client's answer, to the descriptor it is for, and keeps the invariant. |
| AsyncSocketCallbacks.IoReleaseOk | android-emu/android/async-socket.c:215-226 | Dropping a descriptor's reference keeps the invariant; with the last one FINISHED is told and its socket reference goes. |
| AsyncSocketCallbacks.SockReleaseOk | android-emu/android/async-socket.c:1182-1193 | Dropping a socket reference keeps the invariant; with the last one nothing is left to cancel. |
| AsyncSocketCallbacks.EnqueueOk | android-emu/android/async-socket.c:1234-1263 | Queueing keeps the invariant: accepted at the end of its queue with interest on, or refused with one ending. |
| AsyncSocketCancel.CancelQueueOk | android-emu/android/async-socket.c:641-666 | Cancelling empties a queue in order, ends each descriptor once, and keeps the invariant even when callbacks queue more. |
| AsyncSocketCancel.CancelAllOk | android-emu/android/async-socket.c:670-684 | Readers, then writers, are cancelled; the invariant is kept. |
| AsyncSocketQueue.AsyncSocketIO.Fill | android-emu/android/async-socket.c:129-172 | A descriptor that is set up is the same whatever it was before, recycled or new. |
| AsyncSocketQueue.IoQueue.Append | android-emu/android/async-socket.c:1247-1256 | The head and tail pointers chain exactly the old sequence with the new descriptor at its end. |
| AsyncSocketQueue.IoQueue.PullFirst | android-emu/android/async-socket.c:416-429 | The first descriptor is taken off, unlinked, and the chain is the rest. |
| AsyncSocketQueue.IoQueue.Remove | android-emu/android/async-socket.c:470-500 | A descriptor is taken out of any position, the tail and the only one included; absent ones are reported; the chain stays acyclic. |
| AsyncSocketQueue.Recycler.Take | android-emu/android/async-socket.c:129-172 | The recycler's chain loses its first descriptor; its count stays its length. |
| AsyncSocketQueue.Recycler.Give | android-emu/android/async-socket.c:176-196 | It takes a descriptor while it holds fewer than 32, and its chain stays acyclic. |
| AsyncSocketProgram.AsyncSocket.constructor | android-emu/android/async-socket.c:1127-1171 | A new socket on the heap is the new socket of the specification. |
| AsyncSocketProgram.AsyncSocket.RwNew | android-emu/android/async-socket.c:129-172 | Descriptor creation on the heap refines the specification; this socket's live descriptors and the recycled ones stay disjoint. |
| AsyncSocketProgram.AsyncSocket.Enqueue | android-emu/android/async-socket.c:1234-1307 | Queueing on the heap, re-entrant from callbacks, refines the specification for readers and writers. |
| AsyncSocketProgram.AsyncSocket.Client | android-emu/android/async-socket.c:603-612 | A client callback and all the calls it makes back refine the specification. |
| AsyncSocketProgram.AsyncSocket.IoRelease | android-emu/android/async-socket.c:215-226 | Dropping a reference, up to destruction and recycling of the descriptor, refines the specification. |
| AsyncSocketProgram.AsyncSocket.ReleaseIo | android-emu/android/async-socket.c:215-226 | So does a release by the client, from inside a callback or outside. |
| AsyncSocketProgram.AsyncSocket.Finish | android-emu/android/async-socket.c:176-204 | The last notification, the return to the recycler and the release of the socket, in that order, refine it. |
| AsyncSocketProgram.AsyncSocket.SockRelease | android-emu/android/async-socket.c:1182-1193 | Dropping a socket reference, up to destruction, refines it. |
| AsyncSocketProgram.AsyncSocket.CancelQueue | android-emu/android/async-socket.c:641-666 | The cancellation loop refines it and terminates although callbacks may queue more. |
| AsyncSocketProgram.AsyncSocket.CancelAll | android-emu/android/async-socket.c:670-684 | The whole cancellation pass refines it. |
| AsyncSocketProgram.AsyncSocket.CloseSocket | android-emu/android/async-socket.c:691-701 | Closing refines it: no connection, no interest. |
| AsyncSocketProgram.AsyncSocket.Advance | android-emu/android/async-socket.c:508-524 | Moving on to the next descriptor refines it; interest goes off when none is left. |
| AsyncSocketProgram.AsyncSocket.Complete | android-emu/android/async-socket.c:554-563 | Completing the head refines it. |
| AsyncSocketProgram.AsyncSocket.Fail | android-emu/android/async-socket.c:786-795 | A failed transfer, retried or not, refines it. |
| AsyncSocketProgram.AsyncSocket.Disconnected | android-emu/android/async-socket.c:755-778 | A lost connection refines it: cancel, close, tell the client, perhaps reconnect. |
| AsyncSocketProgram.AsyncSocket.Attempt | android-emu/android/async-socket.c:846-906 | One transfer and what its result leads to refines it. |
| AsyncSocketProgram.AsyncSocket.Ready | android-emu/android/async-socket.c:805-911 | Serving a ready queue refines it, for receiving and for sending. |
| AsyncSocketProgram.AsyncSocket.LooperIo | android-emu/android/async-socket.c:1036-1058 | An I/O event refines it. |
| AsyncSocketProgram.AsyncSocket.RemoveIo | android-emu/android/async-socket.c:470-500 | Removal by search through a queue refines it. |
| AsyncSocketProgram.AsyncSocket.IoTimedOut | android-emu/android/async-socket.c:277-291 | A time-out event refines it. |
| AsyncSocketProgram.AsyncSocket.SettleTimeOut | android-emu/android/async-socket.c:573-593 | After TIMED_OUT the descriptor is retried, or removed and released, as specified. |
| AsyncSocketProgram.AsyncSocket.ConnectorEvent | android-emu/android/async-socket.c:1070-1104 | A connection event refines it, and fails on a socket that is gone as specified. |
| AsyncSocketProgram.AsyncSocket.CallConnect | android-emu/android/async-socket.c:1196-1209 | A request to connect leaves one more connector that knows the socket. |
| AsyncSocketProgram.AsyncSocket.Disconnect | android-emu/android/async-socket.c:1212-1220 | Disconnection by the client refines it. |
| AsyncSocketProgram.AsyncSocket.Reconnect | android-emu/android/async-socket.c:1223-1231 | Reconnection by the client refines it. |
| AsyncSocketProgram.AsyncSocket.OnReconnect | android-emu/android/async-socket.c:1111-1119 | The reconnection timer, which runs only on a socket that is referenced, refines it. |
| AsyncSocketProgram.AsyncSocket.Happen | android-emu/android/async-socket.c:1036-1119 | Every event that can happen, a report to a destroyed socket included, is on the heap the step of the specification, so that the theorems about runs hold of the heap. |
| ConnectorTheorems.DescriptorsAreClosedOnce | android-emu/android/async-socket-connector.c:91-172 | Over every run, each descriptor issued is with the connector, or with the socket, or closed once, never two of these; when the connector is gone and the socket has closed its own, all were closed exactly once. |
| ConnectorTheorems.DestroyedOnFirstRefusal | android-emu/android/async-socket-connector.c:375-386 | The connector is destroyed once, and exactly when its client has answered other than RETRY; then no watch or timer can call it; until then exactly one of them will. |
| ConnectorOutcomes.ConnectionIsReported | android-emu/android/async-socket-connector.c:183-248 | In every run the client hears SUCCEEDED exactly for the attempts that completed and FAILED exactly for those that failed, in order; the socket has a descriptor only after its client was done on SUCCEEDED, the one opened for that attempt; the connector keeps that of an attempt that has not succeeded; and it watches exactly an attempt in progress, or waits for the next. |
| ConnectorOutcomes.TakenEffects | android-emu/android/async-socket-connector.c:254-297 | All this for each event that happens, from the event and the answers alone. |
| ConnectorTheorems.MisusedExactly | android-emu/android/async-socket-connector.c:183-297 | Freed memory is used if and only if the client says DONE at the start, or says DONE before an attempt whose end it does not want retried. |
| ConnectorTheorems.Misused | android-emu/android/async-socket-connector.c:388-419 | A concrete run in which DONE to STARTED makes the connector use freed memory. |
| ConnectorTheorems.PoliteClientIsSafe | android-emu/android/async-socket-connector.c:224-297 | A client that only goes on or aborts before the connection is made is never misused, and hears nothing after its first refusal. |
| ConnectorTheorems.DoubleFreeExactly | android-emu/android/async-socket-connector.c:183-203 | A watch is freed twice if and only if a retry cannot create a socket after a watch had been made. |
| ConnectorTheorems.DoubleFree | android-emu/android/async-socket-connector.c:251-297 | A concrete run of three events in which it happens. |
| ConnectorTheorems.RunOk | android-emu/android/async-socket-connector.c:183-435 | Every event keeps the connector's invariant. |
| AsyncSocketConnector.Connector.Free | android-emu/android/async-socket-connector.c:91-125 | Destruction gives up a connection in progress with its watch, stops the timer and closes the descriptor, as specified. |
| AsyncSocketConnector.Connector.Release | android-emu/android/async-socket-connector.c:375-386 | A reference given back, up to destruction, refines the specification. |
| AsyncSocketConnector.Connector.OnConnectorEvents | android-emu/android/async-socket.c:1070-1104 | The socket takes the descriptor over on success, closes it unless the client is done, and lets go unless it wants a retry. |
| AsyncSocketConnector.Connector.OnConnecting | android-emu/android/async-socket-connector.c:183-222 | The end of an attempt refines the specification. |
| AsyncSocketConnector.Connector.OnIo | android-emu/android/async-socket-connector.c:224-248 | An event of the watch refines it. |
| AsyncSocketConnector.Connector.OnRetry | android-emu/android/async-socket-connector.c:254-297 | An expired retry timer refines it. |
| AsyncSocketConnector.Connector.Connect | android-emu/android/async-socket-connector.c:388-419 | A connection request refines it. |
| AsyncSocketConnector.Connector.PullFd | android-emu/android/async-socket-connector.c:421-434 | The descriptor changes hands: the caller has it and the connector no more. |
| AsyncSocketConnector.Connector.Happen | android-emu/android/async-socket-connector.c:183-435 | Every event on the heap is the step of the specification. |
| AsyncUtilsSpec.RecvConserves | android-emu/android/async-utils.c:45-61 | However much is asked for at a time, no byte is lost, repeated or reordered, and how the stream ends stays the same. |
| AsyncUtilsSpec.ReaderIsExact | android-emu/android/async-utils.c:37-69 | For every chunking and any number of resumed calls the block reader ends with exactly the first bytes it wants and leaves the rest; or it has all there was and waits or fails with the error of the connection. |
| AsyncUtilsSpec.WriterIsExact | android-emu/android/async-utils.c:85-116 | For every way the kernel takes bytes the writer ends when all is taken, or stands exactly where there was no more room. |
| AsyncUtilsSpec.LineReaderIsExact | android-emu/android/async-utils.c:134-170 | The line reader ends with exactly the bytes through the first end of line, or with ENOMEM after its buffer is full without one, and takes no byte more. |
| AsyncUtilsSpec.ChunksDoNotMatter | android-emu/android/async-utils.c:37-170 | Two deliveries of the same bytes and the same end give the same status, error, bytes and remaining stream. |
| AsyncUtilsSpec.CutIsBare | android-emu/android/async-utils.c:184-210 | The C string that getLine leaves in the buffer is the line without LF or CR LF, up to a NUL of its own. |
| AsyncUtils.AsyncReader.constructor | android-emu/android/async-utils.c:21-35 | A reader starts empty and watches for input if it wants any. |
| AsyncUtils.AsyncReader.Read | android-emu/android/async-utils.c:37-69 | One call fills the buffer in place as specified, touches nothing behind, and is watched for input whenever it needs more. |
| AsyncUtils.AsyncWriter.Write | android-emu/android/async-utils.c:85-116 | One call sends exactly the next part of the buffer, and stops watching only when all is sent. |
| AsyncUtils.AsyncLineReader.Read | android-emu/android/async-utils.c:134-170 | One call reads on byte by byte as specified, and is watched for input whenever it needs more. |
| AsyncUtils.AsyncLineReader.GetLine | android-emu/android/async-utils.c:184-210 | The line is ended in place, or refused if it is not complete. |
| AsyncUtils.AsyncLineReader.GetLineRaw | android-emu/android/async-utils.c:172-182 | The length of the line with its end, refused if it is empty. |
| AsyncUtils.AsyncConnector.Init | android-emu/android/async-utils.c:219-243 | A connection is made, in progress and watched, or failed with its error saved. |
| AsyncUtils.AsyncConnector.Run | android-emu/android/async-utils.c:245-274 | A connection in progress ends by the pending error of its socket; one that has ended reports the same again. |
| AsyncUtils.AsyncConnector.Stop | android-emu/android/async-utils.c:276-285 | A connection in progress, and no other, is given up. |
| AsyncConsoleSpec.ReadyExactly | android-emu/android/async-console.c:68-148 | For every network, chunking and number of resumed calls: COMPLETE if and only if connecting succeeds and the stream begins with two lines of at most 128 bytes with their LF, the first beginning with "Android Console:"; and exactly those two lines were consumed. |
| AsyncConsoleSpec.ConsoleGoal | android-emu/android/async-console.c:68-148 | The outcome, its error code and the bytes left over are a function of the connection's result, the bytes and how the stream ends. |
| AsyncConsoleSpec.PhasesMoveForward | android-emu/android/async-console.c:76-147 | Phases only move forward; ERROR with its saved code and COMPLETE are absorbing and touch the connection no more. |
| AsyncConsole.CutBanner | android-emu/android/async-console.c:109-116 | The comparison with the banner is not fooled by bytes left over behind the end of the line. |
| AsyncConsole.AsyncConsoleConnector.Connect | android-emu/android/async-console.c:56-65 | Connecting starts over and refines the specification. |
| AsyncConsole.AsyncConsoleConnector.ReadLine | android-emu/android/async-console.c:104-142 | A banner line is read on, cut in place and checked, as specified. |
| AsyncConsole.AsyncConsoleConnector.Run | android-emu/android/async-console.c:68-148 | One call of the state machine, through as many states as it can, refines the specification. |
| BootPropertiesSpec.SnapshotRoundTrip | android-emu/android/boot-properties.c:179-293 | Loading what was saved gives the same properties in the same order, values with '=' included, and consumes exactly the bytes written. |
| BootPropertiesSpec.TextSplits | android-emu/android/boot-properties.c:185-192 | The text of an accepted property splits where name and value were joined. |
| BootPropertiesSpec.OptionRoundTrip | android-emu/android/boot-properties.c:365-387 | An option written "name=value" from an accepted property asks for that property. |
| BootPropertiesSpec.SplitExactly | android-emu/android/boot-properties.c:365-387 | An option asks for a property if and only if it is a name without '=' and NUL, '=', and its value. |
| BootPropertiesSpec.VerdictExactly | android-emu/android/boot-properties.c:99-116 | -1 for a name over 32, -2 for a value over 92, -3 for a name with one of the seven rejected characters or a NUL, 0 otherwise, in this order. |
| BootPropertiesSpec.SnapshotLayout | android-emu/android/boot-properties.c:179-205 | A snapshot byte by byte: the number of properties, and at its place each property as a length, its name, a NUL, a length, its value, a NUL, lengths with the highest byte first. |
| BootPropertiesSpec.FieldExactly | android-emu/android/boot-properties.c:212-220 | What a field of any stream is read as, short ones included. |
| BootPropertiesSpec.LoadedFit | android-emu/android/boot-properties.c:209-250 | Whatever a stream holds, loading only adds properties that pass the checks, at the end of the list. |
| BootPropertiesSpec.Word32 | android-emu/android/boot-properties.c:197-203 | A length written as four bytes, the highest first, reads back as it was. |
| BootProperties.BootProperty.constructor | android-emu/android/boot-properties.c:45-65 | A property is kept as "name=value" and a NUL. |
| BootProperties.PropertyList.ClearAll | android-emu/android/boot-properties.c:75-89 | Every node is freed once, in order, and the tail cell is the head again. |
| BootProperties.PropertyList.Add2 | android-emu/android/boot-properties.c:93-131 | A property goes to the end of the list unless its lengths or its name are refused, with the code that says why. |
| BootProperties.PropertyList.Check | android-emu/android/boot-properties.c:99-116 | The verdict on lengths and on each character of the name, a NUL included. |
| BootProperties.PropertyList.Link | android-emu/android/boot-properties.c:124-128 | Storing through the tail cell keeps the list a chain that ends at the tail cell. |
| BootProperties.PropertyList.ParseOption | android-emu/android/boot-properties.c:365-387 | An option adds what it asks for if that is acceptable, and nothing otherwise. |
| BootProperties.PropertyList.List | android-emu/android/boot-properties.c:309-318 | A client that asks is sent every property in order and a NUL. |
| BootProperties.PropertyList.SaveProperty | android-emu/android/boot-properties.c:179-205 | The record of the property is written, and the text, split in place meanwhile, is byte for byte as before. |
| BootProperties.PropertyList.SaveCount | android-emu/android/boot-properties.c:254-261 | The length of the list is written, in 32 bits. |
| BootProperties.PropertyList.Save | android-emu/android/boot-properties.c:265-274 | The snapshot of the whole list is written, and no property is changed. |
| BootProperties.PropertyList.LoadField | android-emu/android/boot-properties.c:212-220 | A field is read with its length, or found short. |
| BootProperties.PropertyList.LoadProperty | android-emu/android/boot-properties.c:209-250 | One property is loaded at the end of the list, or the error is told. |
| BootProperties.PropertyList.Load | android-emu/android/boot-properties.c:279-293 | The list becomes what the stream holds; after an error it is what was read before. |
| DebugTagsSpec.LastItemWins | android-emu/android/cmdline-option.cpp:255-318 | Each bit is as the last item that names it, or names "all", says; and unchanged if none does. |
| DebugTagsSpec.TagMeans | android-emu/android/cmdline-option.h:75-91 | A tag, with dashes or underscores, turns its bit on; with "no-", or with '-' outside a suffix, it turns it off. |
| DebugTagsSpec.AllMeans | android-emu/android/cmdline-option.cpp:278-286 | "all" stands for every bit, in the same three forms. |
| DebugTagsSpec.NothingExactly | android-emu/android/cmdline-option.cpp:266-313 | An item means nothing if and only if it is shorter than two characters, or its name is neither "all" nor that of a tag. |
| DebugTagsSpec.ItemsAreBetweenCommas | android-emu/android/cmdline-option.cpp:261-264 | The items are the pieces between commas. |
| DebugTagsSpec.BufferedTag | android-emu/android/cmdline-option.cpp:288-299 | Cutting a tag at the size of its buffer never makes it the name of another. |
| DebugTags.ParseItem | android-emu/android/cmdline-option.cpp:266-313 | One item takes its effect, with its prefix '-' or "no-", and is told valid exactly if it has one. |
| DebugTags.FindTagBit | android-emu/android/cmdline-option.cpp:292-299 | The bit of the first tag of that name, or none. |
| DebugTags.ParseDebugTags | android-emu/android/cmdline-option.cpp:255-318 | The scan by pointers is the fold over the comma-separated items from left to right; it answers true if and only if some item was valid. |
| CmdlineOptionSpec.RenderParseRoundTrip | android-emu/android/cmdline-option.cpp:53-231 | Every option record, written as a command line and followed by words that are no options, is read back as it was, with those words left over. |
| CmdlineOptionTheorems.CommandLineRoundTrip | android-emu/android/cmdline-option.cpp:91-114 | Every command line that asks for things in any order, with `-debug tags`, `-debug-tag`, `-verbose` and `@name` among them, gives each flag, the last value of each parameter, all values of each list, and the logs as the comma-separated items of `-debug`, the one item of `-debug-tag` and the bit of "init" change them from left to right. |
| CmdlineOptionTheorems.EndsExactly | android-emu/android/cmdline-option.cpp:61-193 | Reading ends exactly at a word that is no option, at `-debug` as the last word, and at an option of the table that wants a value as the last word. |
| CmdlineOptionSpec.AtNameIsAvd | android-emu/android/cmdline-option.cpp:65-73 | "@name" says what "-avd name" says. |
| CmdlineOptionSpec.NothingIsLost | android-emu/android/cmdline-option.cpp:196-206 | The words left over are the end of the command line, in order. |
| CmdlineOptionSpec.ReadsAsFarAsItCan | android-emu/android/cmdline-option.cpp:61-193 | Reading stops only where no option can be read. |
| CmdlineOptionSpec.LastValueWins | android-emu/android/cmdline-option.cpp:148-163 | A parameter has its last value, and none only if it was not given. |
| CmdlineOptionSpec.WrittenIsFound | android-emu/android/cmdline-option.cpp:116-135 | A name written with dashes is found in the table, and is none of the reserved words. |
| CmdlineOption.Reverse | android-emu/android/cmdline-option.cpp:208-228 | Turning the pointers of a list round gives the chain of the same nodes in reverse. |
| CmdlineOption.AndroidOptions.ReverseLists | android-emu/android/cmdline-option.cpp:208-228 | In the end every list option holds its values in the order of the command line. |
| CmdlineOption.AndroidOptions.AddItem | android-emu/android/cmdline-option.cpp:164-175 | A value goes to the front of its own list and of no other. |
| CmdlineOption.Lookup | android-emu/android/cmdline-option.cpp:129-135 | The first option of that name, or none. |
| CmdlineOption.ReadWord | android-emu/android/cmdline-option.cpp:61-89 | One word, or a word and its value, is read as specified; '@', other words and underscores are told apart. |
| CmdlineOption.ReadOptionWord | android-emu/android/cmdline-option.cpp:91-114 | "-verbose", "-debug" and "-debug-tag" take effect on the logs as specified. |
| CmdlineOption.ReadTableOption | android-emu/android/cmdline-option.cpp:126-193 | A flag, parameter or list of the table takes effect on its own field, or reading ends. |
| CmdlineOption.Compact | android-emu/android/cmdline-option.cpp:196-206 | The words left over are moved down in place, in order, behind the program's name, and ended by a null pointer. |
| CmdlineOption.ReadOptions | android-emu/android/cmdline-option.cpp:61-193 | The loop reads exactly what the recursive reading says, and changes no word. |
| CmdlineOption.ParseOptions | android-emu/android/cmdline-option.cpp:53-231 | The record, the vector, its length and the logs afterwards are what the command line asks for; with `-debug` and no tags the vector is as it was. |
| ConsoleSessionSpec.ChunksDoNotMatter | android-emu/android/console.cpp:665-716 | A session does not depend on how recv cuts the bytes up. |
| ConsoleSessionSpec.FramingIs | android-emu/android/console.cpp:640-716 | The lines executed are the lines of the stream in order, without CRs, each presented as its last ((n-1) mod 4095)+1 bytes; none after a line that ends the session; the rest waits in the buffer. |
| ConsoleSessionSpec.WordSpacesArgs | android-emu/android/console.cpp:439-447 | A line is its first word, spaces, and its arguments, which do not begin with a space and are shorter than the line. |
| ConsoleSessionSpec.NamesAreBetweenBars | android-emu/android/console.cpp:451-473 | The names of an entry are the pieces between bars; a bar at the end adds none. |
| ConsoleSessionSpec.DispatchStays | android-emu/android/console.cpp:509-569 | A handler that is called is one of the table, and its arguments are shorter than the line. |
| ConsoleSessionTheorems.DispatchExactly | android-emu/android/console.cpp:509-569 | A line calls a handler with arguments if and only if it is words and spaces and these arguments, where each word names the first entry of its level with that name, the first is enabled, and the last is the command with that handler; the exact reasons of an unknown command, a missing and a bad sub-command, a table entry without handler, and a forbidden line. |
| ConsoleSessionTheorems.SessionIs | android-emu/android/console.cpp:640-774 | For all that is sent and every token file: the lines executed are those of the stream, the log is exactly what they run, each handler with its line's arguments and the n-th attempt with the n-th token read, and the session ends with the first line that is forbidden or quits. |
| ConsoleSessionTheorems.NothingBeforeAuthentication | android-emu/android/console.cpp:4231-4269 | When authentication is required, a handler outside the pre-authentication table runs only after an attempt whose argument was the token the file held when it was read for this attempt; the full table is given exactly when there was one. |
| ConsoleSessionSpec.PreauthOffers | android-emu/android/console.cpp:4285-4303 | Help, ping, the device's name, auth and quit are all that the pre-authentication table offers. |
| ConsoleSessionTheorems.OnlyPreauthCommandsBeforeToken | android-emu/android/console.cpp:4285-4303 | With that table, any other handler runs only after the token of the file was given. |
| ConsoleSession.MatchIs | android-emu/android/console.cpp:451-469 | Comparing a name with memory finds exactly the first word there, whatever lies behind the end of the line. |
| ConsoleSession.MatchNames | android-emu/android/console.cpp:451-469 | The scan of the alternatives between bars finds the word if and only if it is one of them. |
| ConsoleSession.FindArgs | android-emu/android/console.cpp:439-447 | The pointer to the arguments is behind the first word and its spaces, or null. |
| ConsoleSession.FindCommandAt | android-emu/android/console.cpp:435-477 | The first entry with an alias equal to the first word wins; its arguments lie strictly further on. |
| ConsoleSession.ConstTimeStrcmp | android-emu/android/console.cpp:4221-4229 | The OR of the XORs is zero if and only if the bytes are the same. |
| ConsoleSession.PaddedIs | android-emu/android/console.cpp:4245-4255 | Comparing the token with the argument cut or padded to its length accepts exactly the token. |
| ConsoleSession.ControlClient.Accept | android-emu/android/console.cpp:719-774 | A client starts with the table its authentication status calls for, or is turned away. |
| ConsoleSession.ControlClient.DoAuth | android-emu/android/console.cpp:4231-4269 | The full table is given if and only if the argument is the token that is read. |
| ConsoleSession.ControlClient.DoCommand | android-emu/android/console.cpp:509-569 | A line in the buffer is checked, found and carried out as specified. |
| ConsoleSession.ControlClient.WalkDown | android-emu/android/console.cpp:533-568 | The walk down the command tree, over pointers into the line, refines the recursive one. |
| ConsoleSession.ControlClient.ReadByte | android-emu/android/console.cpp:640-663 | One byte takes its effect on the buffer, which never holds more than 4095, or ends a line. |
| ConsoleSession.ControlClient.Read | android-emu/android/console.cpp:665-716 | A piece of input is taken byte by byte up to the end of the session. |
| ConsoleOutput.SendChunk | android-emu/android/console.cpp:308-321 | All bytes are sent, in order, however little the socket takes at a time; after a hard error a beginning of them was. |
| ConsoleOutput.ControlWrite | android-emu/android/console.cpp:323-355 | What is sent is the text with a CR before exactly those LFs that had none; after a hard error a beginning of that. |
| ConsoleOutput.CrlfOnce | android-emu/android/console.cpp:328-354 | Every LF of the result has its CR, and inserting again changes nothing. |
| ConsoleOutput.OnlyCrAdded | android-emu/android/console.cpp:328-354 | Without its CRs the result is the text without its CRs. |
| ConsoleOutput.CrlfPlaces | android-emu/android/console.cpp:328-354 | Exactly one CR is put before each LF that had none: every byte stands as many places further on as there are such LFs up to it, and the result is no longer than that. |
| ConsoleRedirSpec.AddThenDelete | android-emu/android/console.cpp:1194-1207 | Adding an entry and taking it out again restores the table exactly. |
| ConsoleRedirSpec.WithoutOne | android-emu/android/console.cpp:233-254 | Deleting takes exactly one key away and keeps keys unique. |
| ConsoleRedirSpec.OrderIsKept | android-emu/android/console.cpp:248-250 | What is left is in the order it was in. |
| ConsoleRedir.ControlGlobal.FindRedir | android-emu/android/console.cpp:1144-1156 | The first entry of a key, or none. |
| ConsoleRedir.ControlGlobal.AddRedir | android-emu/android/console.cpp:201-231 | An entry goes to the end; a full table grows by half and four, keeping its entries, or is left as it is for want of memory. |
| ConsoleRedir.ControlGlobal.DelRedir | android-emu/android/console.cpp:233-254 | The entry of a key is taken out in place, the others move down in order. |
| ConsoleRedir.ControlGlobal.DoRedirAdd | android-emu/android/console.cpp:1159-1214 | Keys stay unique and equal to what the network stack redirects; every refusal has its reason, tested in the order of the source, and leaves the table exactly as it was. |
| ConsoleRedir.ControlGlobal.DoRedirDel | android-emu/android/console.cpp:1217-1244 | A known key goes from the table and from the network stack together; an unknown one changes nothing. |

## Left out

- Looper, timer, socket, qemud and stream internals: they are oracles, and streams have a big-endian codec of 32-bit integers.
- Address strings, logging, errno texts, Windows-only branches; failure of allocation, except in the redirection table.
- Connecting, disconnecting or reconnecting a socket from inside one of its own callbacks, which the client promises not to do, and a connection request for which no connector can be allocated.
- AsyncSocketProgram.AsyncSocket.RwNew: does not model more than one socket on one recycler, which is shared only between the I/O of one socket.
- The client's buffers are values: that a client might look at its buffer during a transfer is not modelled, nor is more than the number of bytes for what is sent.
- Receiving and sending are one body of code with a direction, where the source has two that differ in the call and the log messages.
- The connector that `async_socket_connect` makes is, to the engine, a source of later connection events until it is told to stop; the connector itself is modelled for one socket, and what follows an event on a destroyed socket is not modelled.
- AsyncSocketProgram.AsyncSocket.Reconnect: does not model the port and the delay, which only the looper uses.
- ConnectorTheorems.MisusedExactly: what happens after freed memory was used is not modelled, and the run stops there; nor is the reading of freed memory by log messages.
- Comparing a name with a short string near the end of the console buffer may read past the buffer; in the model such bytes read as NUL.
- A null string of debug tags, which the source answers with false.
- BootProperties.PropertyList.Load: requires that no length in the stream is zero or cut short, for which the source has no defined meaning; a stream that ends within a string, and a property that is refused, are modelled.
- BootProperties.PropertyList.LoadField: requires that the length is there and is not zero, as Load does.
- BootProperties.PropertyList.LoadProperty: requires it of both lengths, as Load does.
- DebugTagsSpec.BufferedTag: requires that tag names are shorter than 31 characters, as all of them are.
- CmdlineOption.ParseOptions: the exit of the process for want of a value is an outcome, and the state it leaves is not described.
- Command handlers other than `auth` and `quit`, their answers and what they print, are opaque, and so are the checks for HTTP and UTF-8 and the feature flags.
- ConsoleRedir.ControlGlobal.DoRedirAdd: takes the request as parsed, missing or malformed; the parsing of protocol and ports by strtol is not modelled, and withdrawing a redirection from the network stack is taken to succeed.
- Sensors, GPS, telephony, power, screen recording and the other device consoles, the user interface, and option tables: easy members or outside these cores.
