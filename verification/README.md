# A verified model of the RPC library and its lock server

This project models the RPC library (`rpc/`) and the lock server on top of it, and proves what they promise: calls that run at
most once over a network that drops, repeats and reorders messages, locks that are never possessed twice, a framing layer that
loses nothing, and the queues, buffers and threads underneath. `dafny verify dfyconfig.toml` checks all of it.

The source changes its objects in place, under mutexes, from several threads. Each object is a class here with the source's
fields; each method is what one thread does between two points at which another may come in, and is proved equal to a function
on the object's value. A module then puts those functions together as a state machine with any number of threads, clients and
messages, and the theorems are about every state of every behaviour of that machine. What the operating system answers (a
partial write, a failed read, what `select` reports, the clock, which waiter a signal picks) is a parameter of the step.

## How the files fit together

- The at-most-once protocol. `FinishedWindow` is the client's compressed window of finished xids, `ReplyWindow` the server's
  watermarks and reply lists, `ServerMachine` one server over all its incarnations, `RpcServer` and `RpcClient` the two
  endpoints, `RpcMachine` the whole with the network as the set of all messages ever sent. `RpcInvariant` proves the invariant
  that ties lists at the server to windows at the clients through messages in flight, and `RpcTheorems` draws the conclusions.
  `CallLife` tells the life of a call at its client from the steps taken, `Service` what happens to every request, and that
  every unfinished call can still be served.
  `HaltingRun` and `RestartRun`, put together with `Runs`, are runs that bring the server to its `assert(0)`.
- The lock server. `LockServer` is the monitor, `LockSystem` the composition of clients, protocol and monitor, `LockSafety` its
  invariant, `LockTheorems` the end-to-end results, `Possession` what a caller of acquire may rely on, `LockWire` the arguments
  as the marshalling code sees them.
- Framing. `Framing` has the two ends of a connection, `FramingLink` the connection with its threads, `SendWaits` the second
  wait of `send`, `Delivery` what framing makes happen: upcalls, writes, and the end of every `send`.
- Threads. `Fifo` (with `Condition`) is the bounded queue, `ThreadPool` the worker pool over it, `PoolShutdown` its shutdown,
  `PoolAdmission` which jobs it takes; `SelectAio` and `PollManager` are the poll loop and the removal handshake, `PollService`
  what the loop does for those who ask; `ConnectionRefs` counts references.
- Bytes and time. `Codec` says what the marshalling operators write and read, `MapOrder` what readers make of any bytes,
  `Marshalling` how packets are laid out, `Buffers` has the two buffer classes; `RetryTimer` has the deadlines and the waits
  of `call1`. `Common` is shared.

## What is assumed

- Client nonces and server nonces are distinct and not 0, and a client does not run out of xids.
- Replies are values: how long the server keeps a reply's buffer alive is not part of the model.
- `write_cb` asserts that the connection is not dead (rpc/connection.cc:173), but `dead_` is set before the descriptor is
  unwatched (rpc/connection.cc:71 and 146-148); that assertion is a precondition here.
- `RPC_CHECKSUMMING` is off (GNUmakefile:10), so the header has 24 bytes.

## Where the code does less than one would expect

- The server can reach `assert(0)` in `add_reply` (rpc/rpc.cc:699): a call that timed out or was cancelled also counts as
  finished in the client's window (rpc/rpc.cc:283), and so its placeholder may be pruned while its handler runs.
  `HaltingRun.TimeoutsCanHaltTheServer` gives such a run, `RestartRun.RestartCanHaltTheServer` one with no timeout but a restart
  under a bind, `ServerMachine.AbortsOnlyWhenPruned` says when exactly the server aborts, and `RpcTheorems.PlaceholderSurvives`
  that it takes a timeout or cancel of that very call, or a restart under a bind.
- A bind request carries server nonce 0 and may run once on each of several incarnations
  (`ServerMachine.UnstampedRunsOnEachInstance`); all other requests run on the one they are stamped for.
- `block_remove_fd` waits once, without a loop (rpc/pollmgr.cc:66). However the wait ends, no callback of the descriptor starts
  after the return; but its promise that none is active holds if and only if the loop is not in one at the return
  (`PollManager.ActiveExactlyIfActiveAtReturn`). After a wait that ends by the broadcast it never is; a spurious wakeup can make
  it so (`PollManager.SpuriousWakeupBreaksRemoval`).
- `closeconn` signals nobody (rpc/connection.cc:65-80). A sender that sleeps in its second wait at that moment sleeps for good, and
  nothing else leaves one asleep (`SendWaits.SleepsExactlyWhenClosed`, `SendWaits.CloseLeavesSenderAsleep`).
- A call that times out on a dead connection connects once more and sends its request again before it returns, since the loop
  of `call1` transmits before it looks at the deadline (rpc/rpc.cc:224-240).
- The length test in `unmarshall::rawbytes` adds in 32 bits and is right if and only if the sum does not wrap
  (`Codec.LengthTestIsRight`).
- A thread pool made with no workers has an unlimited queue, accepts jobs and shuts down without running them
  (`PoolShutdown.EmptyPoolLosesItsJob`); with workers the shutdown runs everything.
- `add_timespec` normalises with `>` (rpc/rpc.cc:1036), so a second can stay in the nanoseconds, and `cmp_timespec` then tells
  two ways to write one instant apart (`RetryTimer.SameInstantTwice`), and errs on nothing else
  (`RetryTimer.CmpIsRightUpToTies`).
- A reader accepts more encodings than a writer makes: any non-zero byte is `true` (`MapOrder.BoolsAreLenient`), and the
  entries of a map may come unsorted and more than once (`MapOrder.LastOneCounts`). For types without these what is accepted is
  what a writer writes (`MapOrder.WritesBack`).
- `destroy_wait_` is never reset (rpc/rpc.cc:181), so a client whose `cancel` has found calls outstanding refuses all later ones
  (`CallLife.CallsGoAhead`); and `cancel` overrides replies that have come in but not been returned
  (`CallLife.CallsReturnWhatTheyAreTold`).
- A descriptor that is added while a removal of it waits ends up watched without a callback, since `block_remove_fd` clears the
  callback after its wait (rpc/pollmgr.cc:67). That is the only way to lose one (`PollService.WatchedHasCallback`,
  `PollService.AddDuringRemovalIsLost`).

## Model

| member | source | states |
|---|---|---|
| FinishedWindow.XidRepWindow.UpdateXidRep | rpc/rpc.cc:364-387 | The insertion loop and the compression loop together compute `Report`, and the list stays sorted, non-empty and compressed. |
| FinishedWindow.XidRepWindow.CompressInPlace | rpc/rpc.cc:377-386 | The iterator never points at the element that is popped, and popping while scanning arrives at full compression. |
| FinishedWindow.ReportMeaning | rpc/rpc.cc:364-387 | One report adds exactly that xid to what the window says is finished, never lowers the front, and leaves front + 1 unlisted. |
| FinishedWindow.ReportAllMeaning | rpc/rpc.cc:364-387 | After any sequence of reports, repeats included, the finished xids are exactly 0 and the reported ones. |
| FinishedWindow.FrontIsDetermined | rpc/rpc.cc:206-211 | The front sent as xid_rep depends only on which xids are finished, not on the order in which they were reported. |
| ReplyWindow.ReplyCache.CheckDuplicateAndUpdate | rpc/rpc.cc:625-667 | The loop with its early returns and erasures is `Check`: verdict, new watermark, new list. |
| ReplyWindow.ReplyCache.AddReply | rpc/rpc.cc:674-700 | The reply goes into the entry of its xid, or there is none, where the source aborts. |
| ReplyWindow.ScanKeeps | rpc/rpc.cc:643-666 | Seen as a map, a scan answers what is saved for the xid, loses and changes nothing at or above the watermark, and after NEW nothing below it is left. |
| ReplyWindow.ScanTrims | rpc/rpc.cc:643-666 | Exactly the entries below the watermark that stand in front of the match are dropped; the verdict is NEW, with a placeholder at the end, if and only if there is no match. |
| ReplyWindow.SetReplyKeeps | rpc/rpc.cc:686-699 | Saving a reply changes that entry and no other, and fails exactly when there is no entry. |
| ReplyWindow.NewBoundsTheList | rpc/rpc.cc:643-666 | After NEW every entry is at or above the watermark, so the list is no longer than largest xid - watermark + 1. |
| ServerMachine.CheckRefines | rpc/rpc.cc:625-667 | A pruned list with its watermark answers like a memory of every call that only refuses what is below the watermark. |
| ServerMachine.SavedReplyRefines | rpc/rpc.cc:674-700 | Saving a reply keeps that refinement, and can fail only below the watermark. |
| ServerMachine.AnswersLikeFullMemory | rpc/rpc.cc:530-613 | In every reachable state, for every request, the server's verdict is that of the server that forgets nothing. |
| ServerMachine.AtMostOnce | rpc/rpc.cc:501-613 | For every client nonce and xid, whatever clients and network do, a handler runs at most once per incarnation, and a stamped request on its own incarnation only. |
| ServerMachine.UnstampedRunsOnEachInstance | rpc/rpc.cc:501-510 | Every request without a server nonce that is not below its own xid_rep runs on one incarnation and again on the next. |
| ServerMachine.AbortsOnlyWhenPruned | rpc/rpc.cc:686-699 | The server aborts on a completion if and only if the placeholder is gone, which needs a watermark above the xid. |
| ServerMachine.ListsAreDistinct | rpc/rpc.cc:643-664 | In every reachable state each client's list has pairwise distinct xids. |
| RpcServer.Rpcs.Classify | rpc/rpc.cc:500-575 | dispatch up to the handler: which requests run it, and what is sent at once to the others; with client nonce 0 there is no duplicate check. |
| RpcServer.Rpcs.HandlerReturned | rpc/rpc.cc:563-600 | dispatch after the handler: the reply is saved and sent, or the server aborts; with client nonce 0 it is only sent. |
| RpcClient.Rpcc.BeginCall | rpc/rpc.cc:192-212 | Refusals, the next xid, and the request header with the window front. |
| RpcClient.Rpcc.GotReply | rpc/rpc.cc:328-361 | The window learns the xid in any case; only a call that has no result takes the reply. |
| RpcClient.Rpcc.EndCall | rpc/rpc.cc:276-301 | The call leaves the table, the window learns its xid, a thread in cancel is signalled, and the result is the reply or timeout_failure. |
| RpcClient.Rpcc.Cancel | rpc/rpc.cc:162-180 | Every outstanding call is given cancel_failure, and no new one may begin while there are any. |
| RpcClient.Rpcc.CancelTurn | rpc/rpc.cc:181-184 | One turn of the wait: it goes on exactly as long as calls are outstanding. |
| RpcClient.GotPduInv | rpc/rpc.cc:328-361 | A delivered reply keeps the client's invariant and takes nothing back, given that a FORGOTTEN answer is for a finished call, which RpcTheorems.NoLiveCallIsForgotten proves of the whole. |
| RpcInvariant.StepKeeps | rpc/rpc.cc:187-700 | Every step of clients, network and server, crashes included, keeps the invariant of the whole protocol. |
| RpcInvariant.UnlistedIsExcused | rpc/rpc.cc:643-699 | A placeholder that is gone belongs to a call that gave up, or to a bind that another incarnation answered. |
| RpcTheorems.NoLiveCallIsForgotten | rpc/rpc.cc:206-211 | Watermark <= window front < xid of every unfinished call, every xid_rep in flight <= front, and no retransmission of an unfinished call gets FORGOTTEN; timeouts, cancels and restarts allowed. |
| RpcTheorems.NoCallReturnsAtMostOnceFailure | rpc/rpc.cc:606-611 | No call ever returns atmostonce_failure. |
| RpcTheorems.CallsRunAtMostOnce | rpc/rpc.cc:501-613 | Handlers run with what the client sent, on the instance the call was stamped for, and never twice except for a bind on two instances. |
| RpcTheorems.ReplyAgreement | rpc/rpc.cc:345-361 | A call that ends with a handler's reply returns the code and bytes of a completed run of its own handler, the only one there is unless it is a bind, however many replies are in flight. |
| RpcTheorems.PlaceholderSurvives | rpc/rpc.cc:687-699 | When a handler returns, the server aborts if and only if the placeholder is gone, and then this very call gave up, or is a bind answered elsewhere. |
| RpcTheorems.PatientServerNeverHalts | rpc/rpc.cc:698-699 | Without timeouts, cancels and restarts, line 699 is unreachable. |
| Service.EveryRequestIsTreated | rpc/rpc.cc:500-613 | Every request that arrives, repeated or not, is answered at once with oldsrv_failure, atmostonce_failure or the saved reply, or left to the run under way, or run, each exactly when it should be. |
| Service.UnfinishedCanBeServed | rpc/rpc.cc:224-361 | From every reachable state with the server up, at most four steps give an unfinished call the reply of its handler, the one returned before, or oldsrv_failure if its instance is gone. |
| CallLife.CallsReturnWhatTheyAreTold | rpc/rpc.cc:162-301 | What a call returns is the first reply that came in while it was outstanding, cancel_failure if it was cancelled in that time, and timeout_failure if neither happened. |
| CallLife.CancelReachesEveryCall | rpc/rpc.cc:162-180 | After cancel no call of the client is unfinished, and each one that was outstanding is from then on done with cancel_failure or has returned it, whatever replies arrive. |
| CallLife.RunsAreInvoked | rpc/rpc.cc:192-212 | Every run of a handler is for a call made by exactly one step, with the procedure and arguments given there and the stamp and window front of that time. |
| CallLife.ClientsKnowTheirHistory | rpc/rpc.cc:276-387 | The window says finished of exactly the calls that a reply came for or that ended here; a call has returned exactly if it was ended; the client is bound exactly after a bind, and closing exactly after a cancel that found calls. |
| CallLife.CallsGoAhead | rpc/rpc.cc:192-205 | A call is issued if and only if it is a bind before any bind is done, or another one after it, and no cancel has found calls outstanding; else it is refused with the code of the first reason. |
| CallLife.BoundToItsServer | rpc/rpc.cc:145-159 | A bind gives the client the nonce of an instance that ran this very call. |
| HaltingRun.TimeoutsCanHaltTheServer | rpc/rpc.cc:283-283 | A run with two timed-out calls, no cancel and no restart, that ends in assert(0). |
| RestartRun.RestartCanHaltTheServer | rpc/rpc.cc:501-510 | A run with a restart, and no timeout and no cancel, that ends in assert(0): a bind answered by the first instance runs again on the second. |
| LockServer.LockServerMonitor.AcquireEnter | lock_server.cc:29-65 | acquire up to its return or wait. |
| LockServer.LockServerMonitor.AcquireResume | lock_server.cc:38-60 | One more round of the wait loop. |
| LockServer.LockServerMonitor.ReleaseLock | lock_server.cc:67-92 | release: only the owner's client nonce is compared. |
| LockServer.MonitorIsSafe | lock_server.cc:29-92 | Grants and effective releases of each lock alternate, LOCKED is exactly "granted last", and a free lock with waiters has a signalled one on its way. |
| LockServer.AcquireAnswers | lock_server.cc:29-65 | An acquire, at its first look or a later one, gets the lock if and only if the lock is not granted at present, and waits otherwise. |
| LockServer.ReleaseAnswers | lock_server.cc:67-92 | A release frees the lock if and only if it is granted to this client at present, and wakes a waiter if and only if this client had it last. |
| LockSafety.LockStepKeeps | lock_server.cc:29-92 | Every step of the composed system keeps the tie between possessions at the clients and the server's lock table. |
| LockTheorems.Exclusion | lock_server.cc:29-92 | Each lock has at most one possession, exactly while the server has it LOCKED for that client, over any network behaviour and for threads that share a client. |
| LockTheorems.OnlyItsOwnReleaseEnds | lock_server.cc:67-92 | A possession ends only by the step that runs its own release: no late duplicate frees a later grant. |
| Possession.WhoeverGotItHasIt | lock_client.cc:31-46 | In every state, an acquire that has returned OK and was not released by its thread has the lock: LOCKED at the server for that client, and nobody else has it. |
| LockTheorems.BlockedWorkersAreUnanswered | rpc/rpc.cc:601-602 | Workers blocked in acquire serve distinct unanswered acquire calls, so retransmissions take up no workers. |
| LockTheorems.ServerStaysUp | rpc/rpc.cc:698-699 | Under the lock clients the server does not abort and the monitor keeps its invariant. |
| LockSystem.LockArgsRoundTrip | lock_client.cc:31-46 | The arguments of acquire and release arrive as they were sent. |
| LockWire.WrapperReadsLockArgs | rpc/rpc.h:391-416 | What the lock system reads from argument bytes is what the two-argument handler wrapper reads, refusals included. |
| Framing.Connection.WriteSome | rpc/connection.cc:221-243 | writepdu: the size over the first four bytes once, and then the bytes that the socket takes. |
| Framing.Connection.TestSlot | rpc/connection.cc:126-131 | The loop test of the first wait, with the count of the senders in it. |
| Framing.Connection.SendInSlot | rpc/connection.cc:132-151 | send with the write buffer its own: the PDU becomes the next frame of the order, and its first bytes go out, or the connection is dead. |
| Framing.Connection.SendEnds | rpc/connection.cc:160-166 | The result is true exactly if the connection lives and every byte is written; the buffer is given back, and the waiting senders are woken if there are any. |
| Framing.Connection.WriteCallback | rpc/connection.cc:169-190 | write_cb writes on, and signals the sender exactly if all is written or the write failed. |
| Framing.Connection.ReadSome | rpc/connection.cc:245-295 | readpdu: the size in one read or failure, and then as much as there is. |
| Framing.Connection.ReadCallback | rpc/connection.cc:192-219 | read_cb: a complete PDU is offered, and stays if it is refused; a failure makes the connection dead and signals the sender. |
| Framing.FramesAreDelimited | rpc/connection.cc:246-295 | Frames read off a stream of frames are the frames that were written, in order. |
| Framing.ReadCbOk | rpc/connection.cc:192-219 | Whatever the socket and the upper layer answer, what has been read is the accepted frames and the beginning of the next. |
| FramingLink.FramingIsLossless | rpc/connection.cc:122-295 | For every schedule: frames of concurrent senders never interleave, the accepted PDUs are the first ones sent, and every upcall, also after a refusal, offers exactly the next one. |
| FramingLink.SendKeepsItsWord | rpc/connection.cc:122-167 | send returns true only if its whole frame is on the wire, and no sender sleeps while the write buffer is free. |
| Delivery.WholeMeansOffered | rpc/connection.cc:192-219 | While the reader lives, the PDU it stands at has been offered, and refused, if and only if all of it has been read, and it never reads on behind it. |
| Delivery.UpcallExactlyWhenWhole | rpc/connection.cc:192-295 | One turn of the reader makes an upcall, one and with the next PDU, if and only if all of that has been read, be it new or held; all bytes are accounted for; when it dies, exactly. |
| Delivery.FirstTest | rpc/connection.cc:122-151 | send waits if and only if the connection lives and another send has the buffer, returns at once on a dead one, and else puts the next frame in order and on the wire what the socket takes, true at once if that is all. |
| Delivery.SecondTest | rpc/connection.cc:152-166 | A send in its second wait ends if and only if the connection is dead or its whole frame is out, with true exactly if the connection lives, and wakes those who wait for the buffer. |
| Delivery.SocketTakes | rpc/connection.cc:169-190 | write_cb offers the socket all that is left, puts on the wire what is taken, dies exactly when a write fails, and signals exactly when the sender has nothing left to wait for. |
| SendWaits.OnlyCloseLeavesAsleep | rpc/connection.cc:152-157 | In every state, a sender asleep in its second wait although its loop test is false is on a connection that closeconn has closed. |
| SendWaits.SleepsExactlyWhenClosed | rpc/connection.cc:65-80 | From the step on at which a sleeper's loop test comes out false, it is asleep if and only if that step is closeconn, for ever, apart from spurious wakeups. |
| SendWaits.CloseLeavesSenderAsleep | rpc/connection.cc:65-80 | The run of two steps that leaves a sender asleep. |
| Fifo.Monitor.EnqRound | rpc/fifo.h:56-72 | One round of enq, from taking the mutex or coming back from the wait. |
| Fifo.Monitor.DeqRound | rpc/fifo.h:74-92 | One round of deq. |
| Fifo.QueueIsSafe | rpc/fifo.h:56-92 | For any threads, barging and spurious wakeups: first in first out, never over a non-zero limit, queue length <= signalled dequeuers while one waits, free slots <= signalled enqueuers while one waits. |
| Fifo.EnqAnswers | rpc/fifo.h:56-72 | With room the value goes in; a full queue makes a blocking enq wait with its value and leaves a non-blocking one without effect, so that one never waits. |
| Fifo.DeqAnswers | rpc/fifo.h:74-92 | deq takes the first value if there is one, and waits otherwise. |
| ThreadPool.ThrPool.constructor | rpc/thr_pool.cc:22-33 | The loop starts sz workers over a queue with room for 100 * sz. |
| ThreadPool.ThrPool.AddJob | rpc/thr_pool.cc:52-60 | A job is accepted exactly if there is room; a blocking pool waits for it. |
| ThreadPool.ThrPool.TakeJob | rpc/thr_pool.cc:62-67 | One round of a worker: wait, run the job, or exit on a pill. |
| ThreadPool.ThrPool.Poison | rpc/thr_pool.cc:39-43 | One turn of the destructor's loop, blocking while the queue is full. |
| ThreadPool.StepKeeps | rpc/thr_pool.cc:6-68 | Pills stay last, each taken job runs or has run, each taken pill ended one worker; every step keeps it. |
| PoolShutdown.JobsAreTakenBeforePills | rpc/thr_pool.cc:37-50 | Jobs are taken in the order of acceptance, and every accepted job before any pill. |
| PoolShutdown.ShutdownDrains | rpc/thr_pool.cc:37-50 | When the joins are through every worker has exited on a pill of its own; every accepted job has run exactly once if and only if there were workers or no jobs. |
| PoolShutdown.EmptyPoolLosesItsJob | rpc/thr_pool.cc:22-33 | The run of a pool of size 0 that loses a job. |
| PoolShutdown.ShutdownIsBounded | rpc/thr_pool.cc:37-50 | The shutdown takes no more steps than its initial measure and two for each spurious wakeup. |
| PoolShutdown.ShutdownNeverSticks | rpc/thr_pool.cc:37-50 | Until the joins are through some thread can go on, also when the queue starts full. |
| PoolAdmission.NoAdderWaits | rpc/thr_pool.cc:20-33 | In a pool made not to block no thread but the destructor's ever waits for room. |
| PoolAdmission.OffersAreConserved | rpc/thr_pool.cc:52-60 | Each job has been accepted, or is held by threads that wait, exactly as often as it was offered and not turned away; a blocking pool turns nothing away, another exactly when it is full. |
| PoolAdmission.EveryKeptJobRuns | rpc/thr_pool.cc:37-60 | When the destructor of a pool with workers is through, every job not turned away has run, exactly as often as it was offered. |
| SelectAio.SelectAIO.WatchFd | rpc/pollmgr.cc:149-167 | watch_fd keeps highfds_ the highest watched descriptor, and writes a byte. |
| SelectAio.SelectAIO.UnwatchFd | rpc/pollmgr.cc:182-215 | unwatch_fd with its rescan loop does so too, and says whether the descriptor is watched for nothing. |
| SelectAio.SelectAIO.Collect | rpc/pollmgr.cc:243-256 | The loop after select lists what is readable and writable in order, and takes one byte from the pipe instead of listing it. |
| PollManager.PollMgr.AddCallback | rpc/pollmgr.cc:45-55 | Watching and setting the callback, as two steps between which the loop may copy the descriptor sets. |
| PollManager.PollMgr.DelCallback | rpc/pollmgr.cc:70-77 | The callback goes only when its descriptor is watched for nothing. |
| PollManager.PollMgr.BlockRemoveWaits | rpc/pollmgr.cc:61-66 | block_remove_fd up to its wait. |
| PollManager.PollMgr.PassChanges | rpc/pollmgr.cc:97-103 | The loop's pass through the mutex wakes every waiting remover. |
| PollManager.PollMgr.ServeRound | rpc/pollmgr.cc:104-124 | The rest of a round: the list of callbacks called is `Called`, of which PollService.CalledInOrder says what it is, reading ones first. |
| PollManager.StepKeeps | rpc/pollmgr.cc:45-126 | While a removal is under way a loop that is about to select or in select has an unread byte in its pipe, for any number of removers. |
| PollManager.RemoversAreWoken | rpc/pollmgr.cc:60-126 | Wherever the loop is it can move, every move takes it nearer to the mutex, nobody else's move takes it away, and there all waiting removers are woken. |
| PollManager.RemovedIsCut | rpc/pollmgr.cc:57-68 | However the wait ends: after block_remove_fd(fd) returns, until fd is added again, fd is not watched, its callback is gone, and no callback of fd starts. |
| PollManager.ActiveExactlyIfActiveAtReturn | rpc/pollmgr.cc:57-68 | ... and a callback of fd is active after the return if and only if the loop is in one at the return. |
| PollManager.RemovedIsLeftAlone | rpc/pollmgr.cc:57-68 | After a wait that ends by the broadcast the loop is in none, and has fd nowhere in hand. |
| PollManager.SpuriousWakeupBreaksRemoval | rpc/pollmgr.cc:66-67 | A run with one spurious wakeup in which the removal returns during a callback. |
| PollService.CalledInOrder | rpc/pollmgr.cc:114-124 | Exactly the listed descriptors with a callback are called, once for each of their places and in the order of the list. |
| PollService.ReadyHaveTheirTurn | rpc/pollmgr.cc:104-124 | Whatever other threads do: from the return of select to the next pass through the mutex every readable and then every writable descriptor has its turn, in ascending order, and its callback is called at its turn if and only if it has one then. |
| PollService.ReadyAreServed | rpc/pollmgr.cc:104-124 | From the return of select to the next pass through the mutex the callbacks of all readable and then of all writable descriptors are called, in ascending order, and no others, with other threads at work that leave the callbacks alone. |
| PollService.WatchedAsAsked | rpc/pollmgr.cc:149-215 | A descriptor is watched for reading, or for writing, if and only if the last call about that asked for it. |
| PollService.NewWatchIsNoticed | rpc/pollmgr.cc:165-167 | While the loop is in select, anything watched that it was not told of has left a byte in the pipe, and select looks as far as its highest descriptor. |
| PollService.PipeIsBalanced | rpc/pollmgr.cc:165-248 | The pipe holds a byte for each call that wrote one, less one for each round in which select reported it. |
| PollService.AddTakesEffect | rpc/pollmgr.cc:45-55 | After add_callback the callback is in place and the descriptor is watched as asked. |
| PollService.CallbacksHaveReasons | rpc/pollmgr.cc:45-77 | Every callback is for a watched descriptor or is about to go. |
| PollService.WatchedHasCallback | rpc/pollmgr.cc:45-77 | Every watched descriptor has its callback or is about to get it, until, and only if, a removal returns while its descriptor is watched anew. |
| PollService.AddDuringRemovalIsLost | rpc/pollmgr.cc:60-68 | A run in which that happens. |
| ConnectionRefs.Connection.DecrefInPlace | rpc/connection.cc:82-99 | decref deletes a dead connection whose count has come to 0. |
| ConnectionRefs.Channel.GetRefconn | rpc/rpc.cc:304-320 | get_refconn replaces a dead chan_ and moves the caller's reference to it. |
| ConnectionRefs.RefnoCountsReferences | rpc/rpc.cc:224-320 | refno_ is 1 for chan_ plus the calls that hold the connection, under any interleaving; 0 if and only if deleted; all but the current one are dead. |
| ConnectionRefs.NeverUsedAfterDelete | rpc/rpc.cc:224-320 | Whatever any thread may do next touches only connections that have not been deleted. |
| ConnectionRefs.HandsOutALiveOne | rpc/rpc.cc:304-320 | What get_refconn hands out was, during that very call, found alive or just made. |
| ConnectionRefs.NeverDeletedTwice | rpc/connection.cc:82-99 | No two steps of a behaviour delete the same connection. |
| ConnectionRefs.DeletedExactlyOnce | rpc/connection.cc:82-99 | A connection has no references left if and only if a step has deleted it, and no more than one has. |
| ConnectionRefs.NothingLeaks | rpc/rpc.cc:131-143 | When the client is destroyed every connection it made has been deleted. |
| Codec.RoundTrip | rpc/rpc.cc:752-961 | Every value of every type, nested vectors and maps included, reads back as itself, and the reader stops right behind it. |
| Codec.DecReadsOn | rpc/rpc.cc:862-961 | A reader never goes back or past the end, stays failed once failed, and fails at the end. |
| Codec.BigKeepsOrder | rpc/rpc.cc:752-821 | Integers come in network order: the order of numbers is the order of their bytes. |
| MapOrder.ReadsTyped | rpc/rpc.cc:862-961 | Whatever the bytes, what is read has the type asked for; maps, at any depth, are sorted and have no key twice. |
| MapOrder.LastOneCounts | rpc/marshall.h:244-258 | A map that is read has for each key the last value that came for it. |
| MapOrder.BoolsAreLenient | rpc/rpc.cc:873-878 | A bool is true if and only if its byte is not 0, and reads back as its byte if and only if that is 0 or 1. |
| MapOrder.WritesBack | rpc/rpc.cc:862-961 | For every type without bools and maps, what a reader accepts is byte for byte what a writer of that value writes. |
| Codec.LengthTestIsRight | rpc/rpc.cc:954-955 | The length test of rawbytes, which adds in 32 bits, is right if and only if the sum does not wrap. |
| Codec.LengthTestWraps | rpc/rpc.cc:954-955 | A length for which it is wrong. |
| Codec.ArgumentsArrive | rpc/rpc.h:377-386 | Arguments of any types in any number reach a handler for those types, with okdone. |
| Codec.WrongNumberIsRefused | rpc/rpc.h:381-382 | A handler for fewer or more arguments than were sent refuses them with unmarshal_args_failure. |
| Marshalling.HeaderLeavesBody | rpc/marshall.h:82-107 | A header and the frame size, in either order and before or after the body, leave the body alone. |
| Marshalling.WireLayout | rpc/marshall.h:82-107 | Where the size, each header field and the body are on the wire. |
| Marshalling.ShortHeadersAreNoticed | rpc/marshall.h:174-197 | unpack and take_in fail if and only if the packet is too short for what they read. |
| Marshalling.RequestArrives | rpc/marshall.h:174-186 | Header and arguments packed by a client and framed are what the server unpacks. |
| Marshalling.ReplyArrives | rpc/rpc.h:131-141 | What the server packs, the call returns, with okdone. |
| Buffers.Marshall.RawByte | rpc/rpc.cc:727-737 | One byte appended; the capacity doubles when it is used up, earlier bytes stay, and _ind <= _capa. |
| Buffers.Marshall.RawBytes | rpc/rpc.cc:739-750 | A block appended, with the source's rule for the new capacity. |
| Buffers.Marshall.Put | rpc/rpc.cc:752-821 | operator<< of every type appends `Enc`. |
| Buffers.Marshall.PutElems | rpc/marshall.h:210-217 | The loop over a vector. |
| Buffers.Marshall.PutEntries | rpc/marshall.h:232-242 | The loop over a map. |
| Buffers.Marshall.PackReqHeader | rpc/marshall.h:82-95 | The header goes over bytes 4 to 24, and body, length and capacity stay. |
| Buffers.Marshall.PackReplyHeader | rpc/marshall.h:97-107 | The same for a reply header. |
| Buffers.Unmarshall.RawByte | rpc/rpc.cc:862-871 | At the end 0 and failure, else the next byte, widened through a signed char. |
| Buffers.WidenedIsTheChar | rpc/rpc.cc:862-871 | What comes out is the number that the char stands for, negative from 0x80 on. |
| Buffers.Unmarshall.RawBytes | rpc/rpc.cc:951-962 | All the bytes asked for, or failure without any. |
| Buffers.Unmarshall.Get | rpc/rpc.cc:873-949 | operator>> of every type is `Dec`. |
| Buffers.Unmarshall.GetElems | rpc/marshall.h:219-230 | The loop that reads a vector. |
| Buffers.Unmarshall.GetEntries | rpc/marshall.h:244-258 | The loop that reads a map. |
| Buffers.Unmarshall.TakeInFrom | rpc/rpc.cc:841-850 | take_in moves the buffer, and is ok only if there is room for a header. |
| Buffers.Unmarshall.Arguments | rpc/rpc.h:377-382 | The handler wrapper: all arguments, or refusal. |
| RetryTimer.AddTimespec | rpc/rpc.cc:1029-1040 | The sum has the total of nanoseconds it should have, and no more than one second too many in its nanoseconds. |
| RetryTimer.CmpIsRightUpToTies | rpc/rpc.cc:1012-1027 | The comparison says what the order of time says if and only if the instants differ or are written the same way. |
| RetryTimer.SameInstantTwice | rpc/rpc.cc:1036-1039 | add_timespec makes both ways to write one instant, and they compare as different. |
| RetryTimer.WaitsUseUpTime | rpc/rpc.cc:224-274 | m waits that are neither final nor answered use up 1000 * (2^m - 1) milliseconds, so that is within the timeout. |
| RetryTimer.DeadlineIsTheEarlier | rpc/rpc.cc:242-248 | A wait ends after its own length or with the timeout, whichever is earlier, and is the final one if and only if it would last longer (a tie written with more seconds counts as longer). |
| RetryTimer.TimesSent | rpc/rpc.cc:224-272 | A request goes out once, and once more for each finished wait that left a retransmitting call without a live connection. |
| RetryTimer.WaitForReply | rpc/rpc.cc:214-274 | The loop takes at most m + 1 waits for that m, never doubles past 32 bits before a wait, takes a reply that comes during one, and otherwise gives up exactly at the timeout; wait i ends after 1000 * 2^i milliseconds or at the timeout; the request goes out at first, and again if and only if the call retransmits and the wait before has left no live connection. |

## Left out

- Framing.Connection.WriteCallback: that the connection is not dead is a precondition, because the source does not ensure it.
- PollManager.PollMgr.ServeRound: it is for callbacks that leave the manager alone; the machine has no such restriction.
- Buffers.Unmarshall.RawBytes: it compares in unbounded integers; `Codec.LengthTestIsRight` says when the source's test does the
  same, and what the source reads where it does not is left open.
- RpcClient.Rpcc.Cancel: two threads in cancel at once, of which the last call signals only one, are not treated.
- ServerMachine.AtMostOnce: it is for client nonces other than 0, for which the source promises it.
- Buffers.Marshall.RawBytes: sizes and capacities do not wrap at 2^31.
- RetryTimer.AddTimespec: the source's assertion that the nanoseconds are not negative is its precondition.
- RetryTimer.WaitForReply: the clock reads at least one second after the epoch, since the source uses `tv_sec == 0` as a mark.
- `fifo::size` and `ThrPool::waitDone`; the out-parameter of acquire and release, which the handlers leave unset.
- Sockets, `select`, `fcntl`, `accept`, host names and environment variables: their results are parameters of the steps.
- `EPollAIO`, which is never instantiated; the accept loop of `tcpsconn` and its collection of dead connections.
- References to connections on the server: the path for old server nonces returns without `decref` (rpc/rpc.cc:502-510).
- Requests for unregistered procedures and for an unreachable server, which change nothing; the `lossy_` and `reachable_`
  switches.
- 32-bit wrap-around of xids.
- `lock_server::stat` and `nacquire`, which are never updated; `updatestat`, logging, `gettime.cc`, `method_thread.h`, test programs.
- Liveness of the thread pool when all its workers are blocked in acquire; a full pipe blocking a writer.
