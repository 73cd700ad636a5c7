# Verified models of the lwIP port and the HOTP applet

This project models, in Dafny, the parts of the repository whose correctness depends on
interleavings, ownership or arithmetic, and proves what they promise.

* **Descriptor table and select** (`lwip_client/ta/sockets.c`). `SocketTable` has the protected
  sections as methods on the global array, and `SelectOps` the linked list of waiters and the
  scan. `SocketThreads` interleaves any number of threads, one `SYS_ARCH_PROTECT` section or one
  unprotected access to shared data per step: gets, releases, frees (twice, concurrently),
  allocations, events and whole `lwip_select` calls, in any order. `SelectCall`, `SocketRefcount`
  and `SocketSelect` prove the results, `SelectLog` follows what a select call looks at, over runs
  with all their states, and `SelectResult` proves what it returns. `SocketCalls` puts those steps together to the calls
  that the code makes: `lwip_close` with the events of its handler, receives, shutdowns, arrivals
  and failures, a descriptor that is not known yet. `SocketProtocol` is what they keep,
  `SocketReadable` and `SocketWritable` what they do to readiness, and `SocketWakeups` the
  guarantees for select; `AllocAssertion` is a run in which an assertion of the code fails, and
  `LostWakeups` has runs in which a waiter is not told (`SelectRun` is their common part).
  `AcceptReplay` is the hand-over of receive events to a newly accepted descriptor. `RecvSpec`
  says what receiving on a TCP socket does, down to the bounded mailbox, `RecvPeek` what a peek
  does to the next call and which error a call reports, `RecvEnd` how the end of the stream is told,
  and `RecvTcp` is the socket updated in place, refining them.
* **Netconn state machine** (`lwip_client/ta/api_msg.c`, `lwip_client/ta/api_lib.c`).
  `VectorWriter` is the chunked writer, `NetconnSpec` what every handler and callback makes of a
  netconn with results about whole runs, `NetconnAnswers` what each call is answered, `NetconnClose`
  how closes end and which callbacks they leave, `NetconnSides` when the pcb is given up, and
  `Netconn` the object the TCP/IP thread updates in place, refining it. The `assert`
  statements of `Netconn` are the code's own assertions.
* **Mailbox, semaphores, recursive lock** (`lwip_client/ta/sys_arch.c`) and their client
  (`lwip_client/ta/tcpip.c`): the ring buffer and the binary semaphore in `Mailbox`, the
  concurrent protocol in `MailboxThreads`, `sys_arch_protect` in `LightweightProt`, calls into
  the TCP/IP thread in `Tcpip`, and in `ApiCalls` those calls together with the netconns whose
  handlers and callbacks acknowledge them.
* **Echo server** (`lwip_client/ta/tcpecho_raw.c`): `EchoSpec` says what is echoed, and
  `EchoServer` runs the callbacks on a reference-counted buffer chain and proves that they
  implement it.
* **HOTP** (`hotp/ta/hotp_ta.c`): counter, truncation and the command interface, against
  sections 5.2 and 5.3 of RFC 4226. `Bits` has the bit operators of C.

## How to read the models

The TCP core, pbufs and memp are the environment: their answers are arguments of events and
methods, restricted only by the contracts written next to them. Configuration: the socket layer
has `LWIP_NETCONN_FULLDUPLEX` 1 and `LWIP_TCPIP_CORE_LOCKING` 0; the netconn state machine has
`LWIP_NETCONN_FULLDUPLEX` 0, `LWIP_TCPIP_CORE_LOCKING` 0, `LWIP_SO_SNDTIMEO` 0,
`LWIP_SO_LINGER` 0 and one semaphore per message. (The `lwipopts.h` of the repository turns core
locking on; without it the walk over select waiters really has to restart, and messages really
travel through the mailbox.) In `SocketCalls` the TCP/IP thread works for one thread at a time,
and what it does for a call is a step of the calling thread. `size_t` has 32 bits; every 8-, 16-
and 32-bit truncation the code makes is written out.

A machine is a step function from a state and an action of the environment to the next state;
`Reaches(schedule, s)` says that `s` comes from an initial state by that schedule, and the
theorems hold for every schedule; `ReachesBy` and `Runs` take a condition on every step as well,
and `SelectLog.IsRun` has all the states of a run (`SelectLog.StatesOf`).
Where the code works in place, a class does too, and its methods are proved against the functions
the machine uses.

Assumptions about the environment: a use count never overflows a `u8_t` (the code asserts it, and
a step that would overflow is not taken), the generation counter and the mailbox indices do not
overflow; `cond_wait` without a timeout returns 0; `pbuf_free` decrements and, at zero, goes on
to the next buffer; no second close is submitted while one is in progress (the code asserts it at
api_msg.c:1985); `tcp_close` succeeds on a listening or still connecting pcb; `tcp_write` of no
bytes succeeds; the blocking mode of a netconn is not switched while a write is in progress; the
TCP core calls `err_tcp` once for a pcb and nothing afterwards, calls back from `tcp_connect` once
if that answered ERR_OK, calls no callback that is not registered, and delivers no data after a FIN
and nothing after a failure. What the core presents again after `recv_tcp` refused it arrives with
the next batch of arrivals.

Where the code does not do what it or its comments say, the model follows the code:

* sockets.c:401 asserts that a slot with a pending release is in use. A freed slot keeps the
  mark, so the assertion fails; `SocketRefcount.PendingAssertion` is the exact condition and
  `SocketRefcount.PendingAssertionFails` a run.
* sockets.c:565 asserts that nobody waits in select on the slot `alloc_socket` has taken. A select
  call that could not mark the descriptor while it was being closed can be counted on its next
  owner, and one can come between the protected section and the assertion:
  `SocketSelect.AllocAssertion` is the exact condition, `SocketSelect.AllocAssertionHolds` the runs
  in which neither happens, and `AllocAssertion.AllocAssertionFails` a run.
* A select call can sleep on although a descriptor it asks for has become ready.
  `SocketSelect.NewlyReady` is the exact condition on a step: the receive count, an `s16_t`, is at
  -32768 when a RCVMINUS comes, or `alloc_socket` makes a slot writable that is waited for and was
  not. Over whole calls the first cannot happen as long as at most 32383 RCVPLUS have come that
  announce no message, such as one for each `lwip_shutdown` of the receiving side, which
  `tcp_shutdown` lets succeed again and again: `SocketWakeups.ReaderIsWoken`; with 32767 of them
  it can, `LostWakeups.ReaderIsLost`. The second cannot happen if no select call starts to wait
  for the slot while `alloc_socket` is setting it up, and nobody closes a socket whose descriptor
  has not been stored in `callback_arg.socket`, when the SENDPLUS of the close goes nowhere:
  `SocketWakeups.WriterIsWoken`; `LostWakeups.WriterIsLost` is a run with such a select call. For
  errors the guarantee holds in every run, `SocketWakeups.ErrorIsTold`.
* api_msg.c:1710 compares with a difference truncated to 16 bits. A blocking write then loops for
  ever on a full send buffer when the rest of a vector is a positive multiple of 65536 and more
  vectors follow: `VectorWriter.ProgressUnlessTruncated` and `VectorWriter.TruncationStalls`. For
  the caller: it can happen exactly to a blocking write with a vector other than the last longer
  than 65535 bytes, `VectorWriter.HangsIffLong`.
* After a shutdown of the receiving side that counts as a full close, `sent_tcp` stays registered
  without its argument, which it asserts (api_msg.c:406), on the pcb that `tcp_close` has taken
  over: `NetconnClose.ArgumentDropped` is the exact condition and
  `NetconnClose.SentLosesItsArgument` a run.
* MSG_PEEK is meant to leave everything as it is, but lwip_recv_tcp does not pass NETCONN_NOFIN with
  it: a peek that meets the end of the stream takes the FIN, and the next receive fails with -1
  instead of returning 0. `RecvPeek.PeekIsInvisibleUnlessAtEnd` is the exact condition, for any
  arrivals, and `RecvPeek.PeekTakesTheFin` an input.
* The comment at sockets.c:2538 says that events are counted down or up; RCVMINUS events are not
  counted: `AcceptReplay.WrittenOff`.
* With two threads fetching from one mailbox, a message can be stranded:
  `MailboxThreads.TwoFetchersCanStrandAMessage`.

## Model

| member | source | states |
|---|---|---|
| SocketTable.S16 | lwip_client/ta/sockets.c:730 | conversion to s16_t: in range, congruent, and the identity on values that fit |
| SocketTable.Sockets.SockIncUsed | lwip_client/ta/sockets.c:373-408 | one more use exactly if no release is pending; nothing else changes |
| SocketTable.Sockets.FreeSocketLocked | lwip_client/ta/sockets.c:586-606 | gives the netconn out only with the last use, otherwise leaves a pending release |
| SocketTable.Sockets.DoneSocket | lwip_client/ta/sockets.c:415-440 | one use less, and the deferred release if it was the last and one is pending |
| SocketTable.Sockets.AllocSocket | lwip_client/ta/sockets.c:539-577 | the first slot without netconn and users, and the fresh state of that slot; -1 only if there is none |
| SocketTable.Sockets.PostEvent | lwip_client/ta/sockets.c:2563-2607 | the event field update and the exact condition under which waiters are looked for |
| SelectOps.SelectCbList.Link | lwip_client/ta/sockets.c:1810-1830 | the node becomes the head of a well-formed doubly linked list, and the generation changes |
| SelectOps.SelectCbList.Unlink | lwip_client/ta/sockets.c:1834-1856 | the node leaves the list wherever it is, the rest stays a well-formed list in its order |
| SelectOps.ListRefinesWaiters | lwip_client/ta/sockets.c:1810-1856 | seen through the threads that own the nodes, linking and unlinking a node is what the machine does to its list of waiters |
| SelectOps.Selscan | lwip_client/ta/sockets.c:1874-1939 | the exact ready subsets and their total size, or -1 exactly if a descriptor asked for is being closed; use counts restored |
| SelectCall.ScanSound | lwip_client/ta/sockets.c:1874-1939 | interleaved with anything, a scan reports subsets of the sets it was given and counts their members |
| SelectCall.StepBalanced | lwip_client/ta/sockets.c:1946-1997 | at every position inside select, the thread holds what it held on entry, plus its marks, plus the temporary hold of the step it is in |
| SelectCall.SelectReturns | lwip_client/ta/sockets.c:2031-2212 | select has one way out, and there every hold has been given back and the sets lie inside those given and have the size returned; which scan they come from is `SelectResult.ResultIsJustified` |
| SocketRefcount.StepIsLegal | lwip_client/ta/sockets.c:371-440 | no step releases a descriptor its thread does not hold, or frees one through an unchecked hold |
| SocketRefcount.RefStep | lwip_client/ta/sockets.c:371-650 | every step of every thread keeps the reference-count invariant |
| SocketRefcount.ConnStep | lwip_client/ta/sockets.c:539-650 | every step keeps each netconn in exactly one place: a slot, a thread's hands, or the log of deletions |
| SocketRefcount.UseCountIsHolders | lwip_client/ta/sockets.c:371-440 | in every reachable state fd_used is the number of outstanding holds, and a pending slot is closed exactly if nobody holds it |
| SocketRefcount.DeletedExactlyOnce | lwip_client/ta/sockets.c:583-650 | a netconn reaches netconn_delete at most once, and until then is in exactly one place, concurrent double close included |
| SocketRefcount.StepIsSafe | lwip_client/ta/sockets.c:415-650 | a netconn leaves its slot only when nobody holds it and goes to the thread that deletes it; no new hold while a release is pending; a slot is reused only without holders |
| SocketRefcount.GetsAndReleases | lwip_client/ta/sockets.c:373-530 | a get holds the descriptor exactly if no release is pending and keeps it exactly if the socket is open; done and free give back one hold |
| SocketRefcount.PendingAssertion | lwip_client/ta/sockets.c:400-403 | the assertion about a pending slot holds if and only if the slot still has its netconn |
| SocketRefcount.PendingAssertionFails | lwip_client/ta/sockets.c:400-403 | a run of the table after which it does not hold |
| SocketSelect.WaitInvStep | lwip_client/ta/sockets.c:2081-2164 | every step keeps select_waiting equal to the number of calls counted in |
| SocketSelect.ListStep | lwip_client/ta/sockets.c:1810-1856 | every step keeps the waiter list duplicate-free and equal to the linked calls, walks on a node of it, and signals paired with tokens |
| SocketSelect.NewlyReady | lwip_client/ta/sockets.c:2563-2602 | a step of any thread that makes a waited-for descriptor ready starts a walk carrying that readiness if and only if it is neither a RCVMINUS at the least receive count nor alloc_socket's store of sendevent |
| SocketSelect.WakeStep | lwip_client/ta/sockets.c:2076-2133 | every other step keeps the wake-up invariant, for every call that asks for the descriptor, marked or not: link, count in, then rescan |
| SocketProtocol.ProtocolStep | lwip_client/ta/sockets.c:812-848 | every deed of every call keeps the protocol: who may raise which event on a descriptor, a slot freed only after the handler of its close or by an lwip_accept that gives up, at most one message unannounced and then by the TCP/IP thread |
| SocketProtocol.EventsHitTheirSocket | lwip_client/ta/sockets.c:2533-2561 | over any run of calls: while an event is on its way through event_callback, the socket it was raised for is open, and no other thread gives its slot to another netconn |
| SocketProtocol.ErrorAndLeftover | lwip_client/ta/sockets.c:539-650 | an error stays recorded in a slot until alloc_socket gives the slot away, and data left over from a receive are put there under a hold only and gone when the slot is freed |
| SocketCalls.HandlersTell | lwip_client/ta/api_msg.c:1063-1080 | whoever waits for reading, writing or errors is told of a failure and of a close; a shutdown tells those it concerns, and everybody if it gives the pcb up; an arrival counts once |
| SocketReadable.ReadStep | lwip_client/ta/api_msg.c:295-346 | every deed keeps the receive count within bounds of messages announced, taken and RCVMINUS on their way |
| SocketWakeups.ReceiveCountIsBounded | lwip_client/ta/sockets.c:2563-2573 | over any run with at most 32383 RCVPLUS for no message on an open socket: rcvevent is at least the messages waiting less 129, and at most 383 more than those RCVPLUS |
| SocketWakeups.ReaderIsWoken | lwip_client/ta/sockets.c:2076-2133 | over any such run, a call that sleeps although a descriptor is readable has an event_callback walk still to reach it: no RCVMINUS wraps the count around |
| LostWakeups.ReaderIsLost | lwip_client/ta/api_msg.c:1074-1076 | a run with 32767 shutdowns of the receiving side, after which a reader sleeps on a readable descriptor and nobody is in event_callback |
| SocketWritable.WriteStep | lwip_client/ta/api_msg.c:1069-1079 | every deed keeps this: a socket that is closed or may be freed is writable, or its SENDPLUS is about to be applied, unless it was closed before its descriptor was known |
| SocketWakeups.WriterIsWoken | lwip_client/ta/sockets.c:812-848 | over any run in which nobody closes the socket before its descriptor is known or starts to wait for it while alloc_socket sets it up, a call that sleeps although it is writable has a walk still to reach it; slots reused after a close included |
| LostWakeups.WriterIsLost | lwip_client/ta/sockets.c:561-572 | a run in which a select call comes between two stores of alloc_socket and sleeps on the socket that the next store makes writable |
| SocketWakeups.ErrorIsTold | lwip_client/ta/sockets.c:2583-2588 | over every run, the same for errors |
| SocketSelect.WalkApproaches | lwip_client/ta/sockets.c:2633-2693 | that walk reaches it: each of its steps signals the waiter or gets one node closer |
| SocketSelect.SignalledHasToken | lwip_client/ta/sockets.c:2666-2673 | a signalled waiter always finds its token and can go on |
| SocketSelect.SelectWaitingIsExact | lwip_client/ta/sockets.c:2081-2164 | select_waiting is the number of calls counted in and never overflows |
| SocketSelect.SelectIsBalanced | lwip_client/ta/sockets.c:2003-2213 | on every exit path: holds as on entry, counted nowhere, off the list, out-sets within in-sets, a non-negative result is their total size; what they contain is `SelectResult.ResultIsJustified` |
| SelectResult.ResultIsJustified | lwip_client/ta/sockets.c:2031-2212 | in every run: a call returns -1 only after meeting a reason (a descriptor gone or being closed, 255 calls counted in on one, no semaphore); anything else is what one scan of its own saw, descriptor by descriptor, none being closed then: the first if it found something or the call may not wait, the one before sleeping if that found nothing and the time is up, otherwise one after leaving the list; so without a timeout 0 means that such a scan saw nothing ready |
| SelectResult.ReturnsWhatWasAsked | lwip_client/ta/sockets.c:2003-2213 | over any run, the call that returns has the sets, the limit and the timeout with which its thread entered lwip_select |
| SelectResult.WokenReturnsFreshScan | lwip_client/ta/sockets.c:2118-2191 | a call that takes its wake-up, or whose second scan finds something, returns the sets of a scan it makes after leaving the list, or -1 only if that scan meets a descriptor that is gone or being closed |
| SelectResult.WokenReturnsExactly | lwip_client/ta/sockets.c:2186-2212 | if from then on nothing changes of the descriptors it asks for and none is closing: exactly the ready subsets, and their size |
| SelectResult.MetReasonFails | lwip_client/ta/sockets.c:2082-2133 | a call that meets a descriptor that is gone or being closed, or one with 255 calls counted in, in any of its scans or counting itself in, returns -1 |
| SelectResult.TimedOutReturnsNothing | lwip_client/ta/sockets.c:2181-2185 | a call whose time is up, which it can be only with a timeout, returns 0 and empty sets |
| SelectResult.SignalledForAReason | lwip_client/ta/sockets.c:2563-2693 | in every run, a call is signalled only by an event on a descriptor it asks for, which was ready in a way it asks for when the event had been recorded |
| SocketSelect.AllocAssertion | lwip_client/ta/sockets.c:565 | before alloc_socket's assertion select_waiting is 0 if and only if no call is counted in on the slot |
| SocketSelect.AllocAssertionHolds | lwip_client/ta/sockets.c:565 | the assertion holds in every run in which no select call tries to mark the slot while it is being closed, or marks it while it is being set up |
| AllocAssertion.AllocAssertionFails | lwip_client/ta/sockets.c:561-565 | a run in which a select call is counted in on the slot before the assertion |
| AcceptReplay.EventsConserved | lwip_client/ta/sockets.c:724-741 | events issued equal those counted, to be replayed, in flight and in rcvevent, but for the ones written off, in every interleaving |
| AcceptReplay.EventsAllArrive | lwip_client/ta/sockets.c:724-741 | with the socket open, RCVMINUS only from threads that know the descriptor and at most 32767 events counted at the hand-over: the issued events are those counted, to be replayed, in flight and received, none lost or duplicated, and once settled they are all in rcvevent |
| AcceptReplay.NewConn.ReceivePlus | lwip_client/ta/sockets.c:2533-2569 | is a RCVPLUS run alone in the interleaved machine, and adds exactly one to the events counted or received |
| AcceptReplay.NewConn.FinishAccept | lwip_client/ta/sockets.c:724-741 | the descriptor is stored and all counted events are in rcvevent if an s16_t holds their number; the exact number lost otherwise |
| RecvSpec.DeliveredKeeps | lwip_client/ta/api_msg.c:295-346 | arrivals keep the receive invariant with a bounded mailbox: in order, nothing lost, and what the full mailbox refused is left to come |
| RecvSpec.GatherSound | lwip_client/ta/sockets.c:975-1050 | the gathered bytes are the next ones of the stream, fewer than asked for only if none are left, and waiting only while there are none |
| RecvSpec.RecvServes | lwip_client/ta/sockets.c:959-1058 | one call, with any arrivals in between: bytes in order, 0 for a non-empty buffer only at the end of a fully returned stream (deferred FIN included), window credit equal to the bytes returned, a peek moves nothing, and it waits for ever exactly as in the next row |
| RecvSpec.BlocksIffNothingComes | lwip_client/ta/api_lib.c:598-611 | a call waits for ever if and only if nothing of the stream is left or comes, no FIN is kept, the mailbox is there, the connection has not failed or told an error, and neither the socket nor the call is non-blocking |
| RecvSpec.RecvManyDelivers | lwip_client/ta/sockets.c:959-1058 | any sequence of calls in any state keeps the stream whole and credits what it returns while attached |
| RecvSpec.StreamIsFaithful | lwip_client/ta/sockets.c:959-1058 | for any sequence of calls on a new socket and any arrivals: bytes returned, lastdata, mailbox and what is still to come concatenate to what the core delivers |
| RecvPeek.PeekIsInvisibleUnlessAtEnd | lwip_client/ta/api_lib.c:702-769 | whatever arrives before, during and after the peek: the next call answers as a call in place of the peek would have if and only if the peek did not report the end of the stream, which it does, by a 0, exactly if the end is there when it looks; then the next call fails; a peek that finds nothing yet changes nothing, and one that finds data not even the effects of the next call |
| RecvPeek.PeekTakesTheFin | lwip_client/ta/api_lib.c:744-768 | a FIN and nothing else: peek 0, then -1 |
| RecvPeek.ErrorsAreExact | lwip_client/ta/api_lib.c:597-769 | for any arrivals, exactly when a call that finds no data reports the end, ERR_RST, ERR_ABRT, ERR_WOULDBLOCK or ERR_CONN, by what is there when it looks |
| RecvEnd.NothingButTheEnd | lwip_client/ta/api_lib.c:744-769 | the peer has closed and every byte has been returned: a call returns 0 if none has told the end yet, -1 otherwise, and never waits |
| RecvEnd.EndIsToldOnce | lwip_client/ta/sockets.c:959-1058 | over any sequence of calls for some bytes on a new socket, peeking or not, while the connection lasts: at most one returns 0, only when the peer has closed and every byte has been returned, and then the next one does: a FIN put aside because of data is not lost |
| RecvTcp.Socket.OnRecv | lwip_client/ta/api_msg.c:295-346 | a pbuf or a FIN is appended, or refused with ERR_MEM and nothing changed exactly if the mailbox is full |
| RecvTcp.Socket.OnErr | lwip_client/ta/api_msg.c:434-473 | detaches and leaves the error pending; its message goes into the mailbox unless that is full |
| RecvTcp.Socket.Arrive | lwip_client/ta/api_msg.c:295-473 | either of them keeps the receive invariant |
| RecvTcp.Socket.Fetch | lwip_client/ta/api_lib.c:597-625 | the oldest message, or an error with the mailbox empty, or still waiting: exactly if nothing is there or comes and neither NETCONN_DONTBLOCK, the non-blocking mode, NETCONN_FLAG_MBOXCLOSED nor a pending error forbids it |
| RecvTcp.Socket.RecvData | lwip_client/ta/api_lib.c:702-769 | refines the specified receive: a non-empty pbuf that is next in the stream, or an error only when every received byte has been taken; a FIN that cannot be handled is kept |
| RecvTcp.Socket.TcpRecvd | lwip_client/ta/api_msg.c:1592-1609 | the window is opened by exactly the given amount in 16-bit steps while the pcb is attached |
| RecvTcp.Socket.Gather | lwip_client/ta/sockets.c:975-1050 | the do-while loop refines the specified one: the next bytes of the stream, short only if none are left |
| RecvTcp.Socket.Peek | lwip_client/ta/sockets.c:983-1032 | returns a prefix of the remaining bytes and leaves the bytes of the stream as they are; what becomes of its end is `RecvPeek.PeekIsInvisibleUnlessAtEnd` |
| RecvTcp.Socket.Recv | lwip_client/ta/sockets.c:959-1058 | refines the specified call, answer and conservation included, and waits for ever exactly if `RecvSpec.WaitsForEver` |
| RecvTcp.Socket.RecvMany | lwip_client/ta/sockets.c:959-1058 | any sequence of calls on the object refines the specified sequence: returned, lastdata and mailbox concatenate to what was posted, and credits equal bytes returned while attached |
| VectorWriter.TotalSize | lwip_client/ta/api_lib.c:1020-1028 | the sum of the vector lengths, and overflow of size_t exactly detected |
| VectorWriter.Prepare | lwip_client/ta/api_lib.c:1004-1055 | exactly when a write is refused, has nothing to do, or is submitted with all vectors |
| VectorWriter.HangsIffLong | lwip_client/ta/api_msg.c:1680-1732 | over all runs: a blocking write can end up in that loop if and only if a vector other than the last is longer than 65535 bytes; a non-blocking one never |
| VectorWriter.LoopIsExact | lwip_client/ta/api_msg.c:1680-1732 | the loop writes exactly the next bytes of the flattened vectors for any answers of the core, and stalls only in that turn |
| VectorWriter.InvokeIsExact | lwip_client/ta/api_msg.c:1643-1807 | one invocation: exact bytes; non-blocking always completes, WOULDBLOCK only at offset 0 and ERR_OK only beyond it; blocking completes with ERR_OK only at offset == len |
| VectorWriter.VectoredWriteIsExact | lwip_client/ta/api_msg.c:1643-1807 | the same over any run of callbacks: bytes accepted are the first `offset` bytes, all of them for a blocking ERR_OK, some of them for any ERR_OK, none for WOULDBLOCK |
| VectorWriter.ShortWriteReports | lwip_client/ta/api_msg.c:1690-1790 | over any run in which the core is short of nothing but space and memory: a non-blocking write reports WOULDBLOCK if no byte has been accepted and ERR_OK otherwise; a blocking one completes when and only when every byte has been, with ERR_OK |
| VectorWriter.FatalErrorIsReported | lwip_client/ta/api_msg.c:1755-1794 | an invocation completes with another error exactly if tcp_write refuses some bytes with it, never with ERR_MEM, and without a route never with ERR_OK |
| VectorWriter.FailedWriteReports | lwip_client/ta/api_msg.c:1643-1807 | over any run, a write that ends with neither ERR_OK nor WOULDBLOCK ends with the error of the invocation that the core refused |
| VectorWriter.LoopUsesTheRoom | lwip_client/ta/api_msg.c:1680-1732 | a loop that ends with something left to write, without the core refusing it, has used up the room in the send buffer: so a non-blocking write reports WOULDBLOCK only if there is no room, or no memory |
| VectorWriter.WriteChunk | lwip_client/ta/api_msg.c:1681-1731 | one turn as the code takes it is one turn of the specification |
| VectorWriter.WriteLoop | lwip_client/ta/api_msg.c:1680-1732 | the do-while loop computes the specified bytes, position and exit |
| NetconnSpec.SubmitTotal | lwip_client/ta/api_msg.c:1116-2008 | a handler accounts for the message it is given, by a signal or by making it current, and for no other |
| NetconnSpec.CallbackTotal | lwip_client/ta/api_msg.c:359-508 | a callback signals a message exactly if it stops being current |
| NetconnSpec.SubmitShape | lwip_client/ta/api_msg.c:1116-2008 | every handler keeps the agreement of state, current_msg, pcb and registered callbacks |
| NetconnSpec.CallbackShape | lwip_client/ta/api_msg.c:359-508 | every callback keeps it |
| NetconnSpec.AcknowledgedExactlyOnce | lwip_client/ta/api_msg.c:359-508 | over any run every message is signalled exactly once unless it is current_msg, which is set exactly in WRITE, CLOSE and blocking CONNECT |
| NetconnAnswers.ConnectReports | lwip_client/ta/api_msg.c:478-508 | over any run, a pending blocking connect is answered with the error of the first of its callback and a failure of the connection, and with nothing else: ERR_OK if and only if that is the callback reporting it |
| NetconnAnswers.ConnectAnswers | lwip_client/ta/api_msg.c:1353-1418 | from its submission on: CLSD without a pcb, ALREADY while connecting, ISCONN otherwise busy, the error of tcp_connect, INPROGRESS if non-blocking, or that answer |
| NetconnAnswers.TurnedAway | lwip_client/ta/api_msg.c:1116-2008 | over any run, a message that is turned away gets exactly the one answer that the state of the netconn calls for, and what is under way is left alone |
| NetconnAnswers.PendingWriteReports | lwip_client/ta/api_msg.c:1643-1807 | over any run, a blocked write is answered with what do_writemore comes to in the invocations its callbacks make, or with the error of the connection if that fails first, and those invocations' bytes go out next |
| NetconnAnswers.WriteAnswers | lwip_client/ta/api_msg.c:1816-1862 | the same from its submission on, blocking or not |
| NetconnAnswers.FailureIsToldOnce | lwip_client/ta/api_msg.c:434-508 | after a failure, whatever was under way, the first write of any run is answered with its error and every later one with ERR_CONN |
| NetconnSpec.CloseCompletes | lwip_client/ta/api_msg.c:369-376 | a pending close is acknowledged after at most its initial number of polls, whatever happens in between |
| NetconnClose.ShutdownReports | lwip_client/ta/api_msg.c:1015-1106 | over any run, full close, half shutdown or one that turns into the other: after at most its number of polls an event has completed it, and the acknowledged error and the fate of the pcb are what that event says: with ERR_OK, or ERR_MEM to the last, the pcb is given up exactly if both sides are shut with it |
| NetconnSides.PcbGoneIffBothShut | lwip_client/ta/api_msg.c:945-1106 | over any run on an open connection that the peer does not close first, so that the core reports what has been shut down so far: the netconn has given its pcb up if and only if both sides have been shut down with ERR_OK, in either order, together or by deleting it, short of memory or not, or the connection has failed |
| NetconnClose.FullCloseSucceeds | lwip_client/ta/api_msg.c:1015-1106 | over any run in which closing is short of nothing but memory, a full close is acknowledged with ERR_OK and has given its pcb up after at most its number of polls |
| NetconnClose.CloseSucceeds | lwip_client/ta/api_msg.c:1937-2008 | from its submission on, 41 polls are enough for that |
| NetconnClose.HalfShutdownReports | lwip_client/ta/api_msg.c:1015-1106 | a shutdown of one side, the other being open, whose attempts all find no memory is acknowledged with ERR_MEM after at most its number of polls |
| NetconnClose.ArgumentDropped | lwip_client/ta/api_msg.c:960-987 | in every reachable state, exactly which event leaves sent_tcp registered without the argument it asserts, on the netconn's pcb or on one tcp_close has taken over |
| NetconnClose.ArgumentKept | lwip_client/ta/api_msg.c:400-406 | a run without such an event never gets there |
| NetconnClose.SentLosesItsArgument | lwip_client/ta/api_msg.c:400-406 | a run that gets there |
| NetconnSpec.WriteMoreWrites | lwip_client/ta/api_msg.c:1643-1807 | inside the netconn, an invocation writes the next bytes and acknowledges ERR_OK only with all written |
| NetconnSpec.BlockedWriteDelivers | lwip_client/ta/api_msg.c:1643-1862 | over any run, the bytes of a blocked write go out next and in order, all of them if it is acknowledged with ERR_OK |
| Netconn.TcpNetconn.DoWriteMore | lwip_client/ta/api_msg.c:1643-1807 | refines the specified invocation; short of nothing but space and memory, a non-blocking write is answered WOULDBLOCK if it has written nothing and ERR_OK otherwise; its opening assertions hold |
| Netconn.TcpNetconn.DoCloseInternal | lwip_client/ta/api_msg.c:923-1107 | refines the specified attempt; when it completes, the pcb is given up exactly if it is answered ERR_OK and both sides are shut with it; its assertions on state, pcb, current_msg and listening pcbs hold |
| Netconn.TcpNetconn.HandleConnect | lwip_client/ta/api_msg.c:1353-1418 | refines the connect handler, blocking and non-blocking, with its error replies |
| Netconn.TcpNetconn.HandleConnected | lwip_client/ta/api_msg.c:1304-1344 | refines the connected callback; its three assertions hold, the one on the state because a callback is owed only in CONNECT |
| Netconn.TcpNetconn.HandleListen | lwip_client/ta/api_msg.c:1452-1526 | refines the listen handler with its error replies |
| Netconn.TcpNetconn.HandleWrite | lwip_client/ta/api_msg.c:1816-1862 | refines the write handler; no message is current when it starts one |
| Netconn.TcpNetconn.HandleClose | lwip_client/ta/api_msg.c:1937-2008 | refines the close handler; no message is current when it starts one |
| Netconn.TcpNetconn.HandleDelconn | lwip_client/ta/api_msg.c:1116-1210 | refines the delete handler; its assertions hold |
| Netconn.TcpNetconn.HandlePoll | lwip_client/ta/api_msg.c:359-379 | refines the poll callback with its countdown |
| Netconn.TcpNetconn.HandleError | lwip_client/ta/api_msg.c:434-508 | refines the error callback: a close under way is answered ERR_OK, a write or connect with the error, which also stays pending; current_msg is as it asserts in both branches |
| Netconn.TcpNetconn.RunAll | lwip_client/ta/api_msg.c:359-508 | any allowed run of events on the object ends where the specified run ends |
| Mailbox.SysSem.Signal | lwip_client/ta/sys_arch.c:635-651 | leaves exactly one token |
| Mailbox.SysMbox.Enqueue | lwip_client/ta/sys_arch.c:409-424 | the contents grow by the message at the end; reports the empty to non-empty edge |
| Mailbox.SysMbox.TryPost | lwip_client/ta/sys_arch.c:348-382 | ERR_MEM exactly if 127 messages are in, otherwise appended and signalled exactly on the edge |
| Mailbox.SysMbox.Dequeue | lwip_client/ta/sys_arch.c:489-503 | the oldest message is removed, and a blocked poster signalled if there is one |
| Mailbox.SysMbox.TryFetch | lwip_client/ta/sys_arch.c:428-459 | the oldest message, or nothing exactly if there is none |
| MailboxThreads.TokensStep | lwip_client/ta/sys_arch.c:348-508 | every step keeps mutex token plus holders at 1 and wait_send equal to the counted posters |
| MailboxThreads.PostersStep | lwip_client/ta/sys_arch.c:391-425 | every step keeps a way to be woken for posters that wait |
| MailboxThreads.WakesStep | lwip_client/ta/sys_arch.c:461-508 | every step keeps the single fetcher's way to be woken |
| MailboxThreads.BoundedFifo | lwip_client/ta/sys_arch.c:348-508 | in every interleaving what came out and what is in the ring concatenate to what went in, at most 127 inside |
| MailboxThreads.PostIsOver | lwip_client/ta/sys_arch.c:348-425 | in any run, a call of sys_mbox_post or sys_mbox_trypost that is over has put its message in, once, or, if it only tries, has found the mailbox full |
| MailboxThreads.MutexIsNeverLost | lwip_client/ta/sys_arch.c:635-651 | token plus holders is 1, so saturation never swallows a release, and at most one thread holds the mutex |
| MailboxThreads.NeverBothStuck | lwip_client/ta/sys_arch.c:391-508 | with the mutex free and one fetcher, a sleeping fetcher means empty, a sleeping poster with nobody woken means non-empty |
| MailboxThreads.NoDeadlock | lwip_client/ta/sys_arch.c:391-508 | when nothing can move, every thread is between calls, waits for mail that is not there, or for room only an idle fetcher can make |
| MailboxThreads.TwoFetchersCanStrandAMessage | lwip_client/ta/sys_arch.c:415-423 | a run with two fetchers that ends with mail in the ring and a fetcher asleep |
| LightweightProt.Lock.Protect | lwip_client/ta/sys_arch.c:858-876 | the caller owns the lock one level deeper |
| LightweightProt.Lock.Unprotect | lwip_client/ta/sys_arch.c:885-898 | one level less, the lock free after the last, nothing for a caller that does not own it |
| LightweightProt.Lock.Nest | lwip_client/ta/sys_arch.c:858-898 | nested sections of any depth leave owner and depth as they found them |
| LightweightProt.MutualExclusion | lwip_client/ta/sys_arch.c:858-898 | at most one thread is inside a section although the owner is read unlocked, and the count is its nesting depth |
| LightweightProt.Recursive | lwip_client/ta/sys_arch.c:858-898 | exactly which sections are nested, entered and left; re-entering never blocks, blocking is on a thread that has the mutex, the outermost leave gives it away |
| Tcpip.Stack.TryCallback | lwip_client/ta/tcpip.c:358-379 | ERR_OK exactly if a message was available and the mailbox not full; a message the mailbox rejects is freed at once |
| Tcpip.Stack.HandleMsg | lwip_client/ta/tcpip.c:164-224 | the oldest message is handled: a pool message is freed, an API message signalled if its function says so, nothing else changes |
| Tcpip.StartedInPostingOrder | lwip_client/ta/tcpip.c:135-157 | messages are started in the order the mailbox accepted them |
| Tcpip.ReturnsOnlyWhenAcknowledged | lwip_client/ta/tcpip.c:450-474 | whatever functions are carried, as long as each acknowledges once: a call returns only after its message was acknowledged, and before that it is in exactly one place |
| Tcpip.NoDanglingMessage | lwip_client/ta/tcpip.c:450-474 | as long as a message on a caller's stack can still be looked at, that caller has not returned |
| Tcpip.PoolFreedExactlyOnce | lwip_client/ta/tcpip.c:164-283 | a pool message is freed exactly once, processed or rejected by a full mailbox |
| Tcpip.WaitsOnlyForCallbacks | lwip_client/ta/tcpip.c:164-224 | with the mailbox drained, a caller is blocked if and only if a callback still owes its acknowledgement |
| ApiCalls.SubmitEffect | lwip_client/ta/api_msg.c:1116-2008 | a handler acknowledges its own message and leaves the current one alone, or makes it the current message of a netconn that had none |
| ApiCalls.NextRefines | lwip_client/ta/tcpip.c:164-224 | every step of threads, TCP/IP thread and netconns together, with the semaphores signalled by the netconns' own acknowledgements, is a step of `Tcpip` or none |
| ApiCalls.KeepsTheRule | lwip_client/ta/tcpip.c:164-224 | so every run of the whole is a run of `Tcpip`, whose rule on acknowledgements is kept |
| ApiCalls.ReturnsOnceAcknowledged | lwip_client/ta/api_lib.c:117-136 | over any run of the whole: a call returns only after its message was acknowledged by a handler or callback, which happens at most once |
| ApiCalls.CurrentMessageIsAlive | lwip_client/ta/tcpip.c:450-474 | current_msg of any netconn is on the stack of exactly one caller, which has been neither signalled nor let go |
| ApiCalls.CurrentIsOwed | lwip_client/ta/tcpip.c:450-474 | every netconn with a current_msg is such a netconn: the message has a number and is the one that carried it |
| ApiCalls.WaitsOnlyForItsNetconn | lwip_client/ta/tcpip.c:450-474 | with the mailbox drained, a caller is blocked if and only if its message is the current message of a netconn |
| EchoSpec.SendStep | lwip_client/ta/tcpecho_raw.c:97-131 | the loop stops at the first refused buffer and otherwise hands over the head and goes on |
| EchoSpec.SendIsFaithful | lwip_client/ta/tcpecho_raw.c:97-131 | sending keeps received == written + pending and the window credits |
| EchoSpec.StepIsFaithful | lwip_client/ta/tcpecho_raw.c:133-245 | every callback keeps them, and a close by the server happens only with everything echoed |
| EchoSpec.SendsWhatFits | lwip_client/ta/tcpecho_raw.c:133-245 | on every occasion to send, as many of the waiting buffers as the core takes go out, in order; the server closes exactly if the peer has and nothing is waiting; what comes after the FIN is discarded and counted |
| EchoSpec.EchoIsFaithful | lwip_client/ta/tcpecho_raw.c:83-245 | over any run: written is a prefix of received, received before the FIN is written plus pending, closed means all echoed |
| EchoSpec.DrainsAfterFin | lwip_client/ta/tcpecho_raw.c:145-192 | once the core takes everything, a closing connection drains and closes |
| EchoServer.FreeWholeChain | lwip_client/ta/tcpecho_raw.c:70-81 | freeing the head of a singly referenced chain frees every buffer of it, once, and nothing else |
| EchoServer.FreeHead | lwip_client/ta/tcpecho_raw.c:107-123 | taking a reference to the next buffer before freeing the head frees the head alone |
| EchoServer.JoinChains | lwip_client/ta/tcpecho_raw.c:229-236 | appending a received chain keeps every buffer singly referenced |
| EchoServer.Connection.Send | lwip_client/ta/tcpecho_raw.c:97-131 | refines the specified loop; the chain stays exactly the pending segments, each referenced once |
| EchoServer.Connection.Close | lwip_client/ta/tcpecho_raw.c:83-95 | refines the specified close; no received buffer remains allocated |
| EchoServer.Connection.RecvData | lwip_client/ta/tcpecho_raw.c:194-245 | refines the receive callback in its three states |
| EchoServer.Connection.RecvFin | lwip_client/ta/tcpecho_raw.c:202-212 | refines the FIN branch |
| EchoServer.Connection.ErrorCallback | lwip_client/ta/tcpecho_raw.c:133-143 | frees everything without touching the pcb |
| EchoServer.Connection.Run | lwip_client/ta/tcpecho_raw.c:133-245 | any run of callbacks with any answers of the core refines the specified run and keeps the ownership invariant |
| Hotp.BigEndianAppend | hotp/ta/hotp_ta.c:180-187 | the number an array stands for splits at any byte |
| Hotp.Carried | hotp/ta/hotp_ta.c:184-187 | stopping the carry at a byte that did not roll over adds exactly 1 |
| Hotp.RolledOver | hotp/ta/hotp_ta.c:184-187 | all bytes rolling over is the wrap from the largest number to 0 |
| Hotp.Session.IncrementCounter | hotp/ta/hotp_ta.c:180-187 | big-endian plus 1 modulo 2^64 |
| Bits.AndMask | hotp/ta/hotp_ta.c:124-129 | and-ing with a mask of low bits is a remainder |
| Bits.OrDisjoint | hotp/ta/hotp_ta.c:126-129 | or-ing a shifted number with lower bits adds them |
| Hotp.DynamicTruncation | hotp/ta/hotp_ta.c:122-132 | the shifts, masks and ors of the code, bit by bit, give the 31-bit number of section 5.3 of RFC 4226 |
| Hotp.Truncate | hotp/ta/hotp_ta.c:122-132 | the code of section 5.3 of RFC 4226 with all indices in range |
| Hotp.Session.RegisterKey | hotp/ta/hotp_ta.c:134-159 | installs a well-typed key that fits and refuses anything else; the counter is not touched |
| Hotp.Session.GetCode | hotp/ta/hotp_ta.c:161-194 | replies with the code of the counter before the call, and advances the counter modulo 2^64 even if the crypto service fails; an ill-typed request changes nothing |
| Hotp.Session.Run | hotp/ta/hotp_ta.c:239-253 | over any run of commands the counter is the number of well-typed requests modulo 2^64 and every reply is the right code |
| Hotp.EncodingIsUnique | hotp/ta/hotp_ta.c:180-191 | the eight bytes hashed are the only encoding of the counter value |

## Left out

- `lwip_poll` and `lwip_pollscan`: the increment helper ignores a failed hold while the decrement always releases, so the balance belongs to `lwip_select` only.
- Linger, send timeouts and the full-duplex abort paths of the netconn state machine.
- Writes of more than SSIZE_MAX bytes after their size has been limited; `VectorWriter.Prepare` only says when that happens.
- The flags of `tcp_write`, the low-water marks and `NETCONN_FLAG_CHECK_WRITESPACE`, and the events a netconn raises towards select, inside the netconn state machine.
- UDP, RAW, IPv6, multicast, DNS, socket options, ioctl and fcntl: flat dispatch.
- The TCP core, pbuf and memp internals and pthread internals: contracts only. Calls of `sent_tcp` on a pcb whose argument has been cleared are not part of the model; `NetconnClose` says when one is possible.
- What RCVPLUS do to a `callback_arg.socket` below 0 is `AcceptReplay`; in `SocketCalls` they reach no socket, and `lwip_accept` replays any number of them.
- Two receives that find the same deferred FIN at once, each of which raises a RCVMINUS for it; in `SocketCalls` every RCVMINUS is for a message of its own.
- The mailbox that a shutdown closes: `SocketCalls` lets messages arrive and be taken as long as there is a pcb.
- `sys_mbox_free`, and waits that are interrupted.
- The generation counter of the waiter list and the mailbox indices as C ints: unbounded.
- The accept path before `lwip_accept` has the connection (`netconn_accept`, `accept_function`).
- Liveness under fair scheduling: the wake-up and deadlock results say what a thread can still do, not that the scheduler lets it.
- Errors and shutdowns that come in between two accesses to the mailbox within one receive, and `shutdown` by the application while a receive is under way.
- SocketThreads.State: sockets are values in a sequence there; that the protected sections update the array in place is `SocketTable.Sockets`.
- MailboxThreads.State: the ring is the queue it stands for there; that the array implements it is `Mailbox.SysMbox`.
- The copies of these files under `lwip_test/ta`, the other echo servers, host programs, hello_world, ping, acipher and aes.
