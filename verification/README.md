# Verified model of the PhxRPC runtime

PhxRPC is an RPC framework whose server is half synchronous, half asynchronous: each
server unit has one IO thread, which runs a scheduler of cooperative user threads (one
`IOFunc` call per connection), and a number of worker threads. The two sides are linked by
an in-queue, an out-queue, per-socket timeouts, and a handshake for responses that arrive
after their connection has given up waiting. This project models that core in Dafny and
proves what it keeps over whole runs.

`dafny verify dfyconfig.toml` checks everything.

| files | what they model |
|---|---|
| `Hsha`, `HshaInvariant`, `HshaSteps`, `HshaTheorems` | the server unit as a transition system: scheduler, `IOFunc` calls, workers, queues, timers, and the ownership of every request, response and socket record |
| `HshaRuns`, `HshaCalls` | what the server unit does with events, requests and responses over whole runs, stage by stage, and the course of a call and of the scheduler loop |
| `ThdQueue` | the blocking queue, one step per operation on the mutex, the queue, the counter, the flag or the condition variable |
| `HshaAdmission` | connection limit, hand-off round, load control, split of the workers |
| `TimerHeap`, `Timer` | the timer: a binary heap whose sockets know their own positions, as a class that works in place, and the same algorithms as functions |
| `UThreadRuntime` | the slot allocator of the user threads |
| `SchedulerRuns`, `Scheduler` | the scheduler's timeout handling, event loop and `ResumeAll` over the two classes above, and what one turn of its loop means |
| `HttpText`, `HttpSpec`, `HttpRoundTrip`, `HttpReading` | what is printed and what is parsed, as functions on byte strings, the round trips, and what any given text is read as |
| `HttpMessage`, `HttpProto` | the message objects, and the reader and writer with their buffers, in-place cutting and loops, proved against those functions |
| `Common` | small shared notions |
| `UrlEncode`, `HttpQuery` | the bounded form encoder and the query made with it |
| `SocketStream` | the buffered TCP stream over a channel with partial sends and receives |

In the transition systems a step that reads or frees an object that is not live sets
`fault`, so that memory safety is proved about the runs and not assumed. Adding, removing or
popping a timer counts as touching every socket in the timer heap, because sifting writes
their timer ids. A user thread's
step runs from one operation on shared state to the next; a worker's step is one queue
operation, one dispatch or one `delete`. The queues appear there as atomic FIFO queues,
which `ThdQueues.RefinesAtomicFifo` justifies. Connections stand for their socket records
and are numbered afresh, and so are requests and responses.

Events the program does not decide (readiness, partial sends, timeouts, the clock, random
draws, what a user thread does next) are nondeterministic choices or parameters; so is the
reject rate that a unit finds when it decides about a request.

## Where the code does less than intended

These are results about the code as it is written; each has a lemma or a contract that
says exactly when it matters.

* `Timer::RemoveTimer` compares with `timer_heap_[now_idx]` after `pop_back`, which is one
  past the end when the last of several entries is removed (`phxrpc/network/timer.cpp:123-133`).
  The slot still shows the removed entry, so the removed socket gets its old id back.
  `Timers.Timer.RemoveTimer` is the code as written and keeps the ids right if and only if
  the entry was not the last of several; `Timers.Timer.RemoveTimerGuarded` adds the missing
  guard and always does. The scheduler is modelled with either: with both, every stored
  timer names its own waiting thread, and only with the guard does every waiting thread keep
  its timer. In the server unit the step `StaleRemoval` takes any stored timer away while a
  call runs, which is the most a stale id can do; `lost` records the calls it happened to.
  Everything proved there holds with that step, except that the timed sockets are all the
  live ones, which holds if and only if none was lost.
* `Timer::GetNextTimeout` narrows the gap to an `int`, so a timer whose gap is a non-zero
  multiple of 2^32 ms is reported as due; a timer without timeout is too, at every clock
  reading whose low 32 bits are all ones.
* `URLEncode` tests `n > length - 3` on unsigned numbers and leaves its buffer for the
  limits 1 and 2. Where it stops early it steps over one byte without writing it, and for
  bytes above 127 it reads outside its digit table (what it reads is the parameter `stray`).
* The chunked reader cites the decoding loop of RFC 2616, section 19.4.6, but does not read
  the trailer and the blank line after the last chunk, so the next request on the connection
  is read from that blank line.
* Both printers send a `Transfer-Encoding: chunked` header that the caller has set, but never
  make chunks of the content. The reader then decodes the raw content as chunks, and such a
  message never comes back as it was sent, except a response with status 304 and no content.
* A response without content and without Content-Length takes the following bytes of the
  connection as its content; and a response with status 304 must have no content.
* When a `sync` fails, the bytes that were already sent stay in the put area.
* Taking a header away removes only the first of that name.

## Model

| member | source | states |
|---|---|---|
| HshaTheorems.NoUseAfterFree | phxrpc/rpc/hsha_server.cpp:469-578 | in every interleaving of IOFunc calls, workers, responses and timeouts, no request, response or socket record is freed twice, or used after it was freed, also by the writes that heap sifting makes to the records of other sockets |
| HshaTheorems.ExactlyOneOutstanding | phxrpc/rpc/hsha_server.cpp:504-549 | a connection has at most one request in in-queue, workers and out-queue together, and has one if and only if its call waits for the response or its socket was lazily destroyed |
| HshaTheorems.OutstandingIsTheAwaitedRequest | phxrpc/rpc/hsha_server.cpp:509-512 | the outstanding item of a waiting call carries the very request of its present keep-alive round, wherever it is |
| HshaTheorems.ResponseResumesItsWaiter | phxrpc/rpc/hsha_server.cpp:551-578 | a response taken from the out-queue resumes the call that is parked on the request it answers, and no other |
| HshaTheorems.WakeUpMatches | phxrpc/rpc/hsha_server.cpp:512-532 | after the wait the call sends the response to its own request, or abandons its socket, and the latter exactly when no response was handed over; its timer is gone |
| HshaTheorems.TimedSocketsAreTheLiveOnes | phxrpc/network/uthread_epoll.cpp:512-525 | whenever the scheduler loop is in control, the live calls are those with a timer and those that lost it to a stale id, so the timed sockets are exactly the live ones if and only if none was lost; no two name the same slot |
| HshaTheorems.TimedSocketsAreLive | phxrpc/network/timer.cpp:66-137 | in every state, also while a call runs, a socket in the timer heap is the live record of a parked call and names its slot; a lazily destroyed socket is in neither the timer heap nor epoll |
| HshaTheorems.NothingLostWhenGuarded | phxrpc/network/timer.cpp:123-133 | in runs without stale removals, which is what the guard achieves, no call ever loses its timer |
| HshaTheorems.WakeUpsAreExact | phxrpc/network/uthread_epoll.cpp:238-264 | an epoll event or a timeout resumes exactly the call whose socket it names |
| HshaTheorems.NothingLeaks | phxrpc/rpc/hsha_server.cpp:551-578 | once no call, queue entry or busy worker is left, every request, response, socket record, timer and slot has been released |
| HshaTheorems.InQueueIsBounded | phxrpc/rpc/hsha_server.cpp:490-509 | the in-queue never exceeds MaxQueueLength, although check and push are separate steps |
| HshaRuns.AdmissionIsExact | phxrpc/rpc/hsha_server.cpp:490-502 | in every reachable state a request that was read is let in if and only if the in-queue is shorter than MaxQueueLength and the draw modulo 100 reaches the reject rate; otherwise it is freed and its call leaves; nothing else changes |
| HshaRuns.LetInMeansQueued | phxrpc/rpc/hsha_server.cpp:490-509 | over every run the requests appended to the in-queue are exactly those that found room and whose draw let them in, in order (but for one that is about to be appended), and the workers take them first in, first out |
| HshaCalls.LetInAtMostOnce | phxrpc/rpc/hsha_server.cpp:480-509 | over every run no request is let in twice |
| HshaRuns.EveryRequestIsAnsweredOnce | phxrpc/rpc/hsha_server.cpp:375-409 | over every run the responses that workers push answer exactly the requests that they took and no longer hold, once each and for the connection each came from; the loop takes them first in, first out |
| HshaRuns.LateRequestsAreNotServed | phxrpc/rpc/hsha_server.cpp:391-400 | the dispatch function fills in a response if and only if its request was queued for less than 500 ms; in any case a new response to that request is made |
| HshaRuns.EveryResponseReachesItsCall | phxrpc/rpc/hsha_server.cpp:551-578 | over every run the responses taken from the out-queue, except those for lazily destroyed sockets, are exactly those that the calls of their connections go on with, in order and at once |
| HshaRuns.EveryEventReachesItsCall | phxrpc/network/uthread_epoll.cpp:236-244 | over every run each event that epoll reports switches to the call of its connection, once and in the order of the report, before the loop goes on |
| HshaCalls.CallsTakeTheirCourse | phxrpc/rpc/hsha_server.cpp:469-548 | in every reachable state a call's own step takes it where IOFunc goes on, carrying its request, its response and is_keep_alive along, and gives control back if and only if the call now waits; no other step moves it |
| HshaCalls.KeepAliveGoesOn | phxrpc/rpc/hsha_server.cpp:504-543 | after every run a call that has sent its response frees it and goes on to the next request if and only if the request it answered asked to be kept alive and the send succeeded; else it leaves |
| HshaCalls.LoopGoesRound | phxrpc/network/uthread_epoll.cpp:229-276 | over every run the loop passes its five parts in order and skips none; it leaves the events and the responses only when none is left, and a waiting call gives control back to the part that switched to it |
| HshaCalls.CallsAreNeverStuck | phxrpc/rpc/hsha_server.cpp:469-548 | in every reachable state the running call can take every step its source allows there |
| HshaCalls.LoopIsNeverStuck | phxrpc/network/uthread_epoll.cpp:229-276 | in every reachable state the loop can go on: with any report about polling sockets, with the next event or response, with any new connection, and with any timer of the heap |
| HshaCalls.WorkersAreNeverStuck | phxrpc/rpc/hsha_server.cpp:375-409 | in every reachable state a worker can go on unless it is idle and the in-queue is empty |
| HshaCalls.PolledAreThePollers | phxrpc/network/uthread_epoll.cpp:309-322 | in every reachable state epoll watches exactly the sockets of the calls that poll |
| HshaSteps.StepKeepsInv | phxrpc/rpc/hsha_server.cpp:375-578 | every step of every thread keeps the ownership and matching invariant |
| HshaSteps.DestroyLateSocket | phxrpc/rpc/hsha_server.cpp:563-571 | taking a response whose socket was lazily destroyed frees exactly these two, which were live until then, and keeps the invariant |
| HshaSteps.TimedOutStep | phxrpc/rpc/hsha_server.cpp:513-525 | on timeout the call that owned its socket no longer does; the socket is marked for whoever takes the response to the request still in flight, has no timer and is not in epoll, and the invariant is kept |
| HshaSteps.AnsweredStep | phxrpc/rpc/hsha_server.cpp:527-530 | otherwise the call goes on with the response stored in its socket, which answers the very request it waited for, and the invariant is kept |
| HshaSteps.LeaveStep | phxrpc/network/socket_stream_uthread.cpp:51-67 | the stream's destructor frees the socket, live until then, if and only if it is still attached, and the invariant is kept |
| HshaSteps.StaleRemovalStep | phxrpc/network/timer.cpp:112-137 | the removal of any other call's timer under a stale id keeps the invariant |
| ThdQueues.FirstInFirstOut | phxrpc/rpc/thread_queue.h:45-67 | items taken, followed by items queued, are the items pushed, in order, in every interleaving |
| ThdQueues.SizeNeverOvercounts | phxrpc/rpc/thread_queue.h:37-43 | size() never exceeds the real length; it lags by at most one, and only inside the mutex |
| ThdQueues.RefinesAtomicFifo | phxrpc/rpc/thread_queue.h:37-67 | every step acts on a FIFO whose length is size_ as one atomic push or pluck or not at all; a push appends the value it was called with, and a pluck returns the item it removed |
| ThdQueues.EveryItemHasAWaker | phxrpc/rpc/thread_queue.h:45-73 | no lost wake-up: while a waiter sleeps un-notified, queued items are covered by notified waiters still to run (and the one notification under way); after break_out nobody sleeps; spurious wake-ups and late pluckers included |
| ThdQueues.AllAsleepMeansEmpty | phxrpc/rpc/thread_queue.h:52-67 | if all who pluck sleep and nobody pushes, the queue is empty and not broken |
| ThdQueues.EmptyHandedOnlyWhenBroken | phxrpc/rpc/thread_queue.h:52-62 | in every run, a pluck that comes out without an item does so after break_out |
| ThdQueues.PeekingConsumerNeverBlocks | phxrpc/rpc/hsha_server.cpp:551-560 | the only consumer of a queue never sleeps in a pluck that follows a true CanPluckResponse |
| ThdQueues.PluckDecides | phxrpc/rpc/thread_queue.h:52-67 | a pluck gives up if and only if there was a break_out, and else takes the first item if and only if there is one |
| ThdQueues.PeekIsExact | phxrpc/rpc/hsha_server.cpp:551-560 | with nobody inside the mutex a look at size() leads into a pluck if and only if the queue has an item |
| ThdQueues.SomebodyCanMove | phxrpc/rpc/thread_queue.h:37-73 | as long as a thread is awake inside an operation, some thread can move, and does move on |
| HshaAdmission.ConnectionsAreBounded | phxrpc/rpc/hsha_server.cpp:649-665 | connections handed over and not finished never exceed MaxConnections; hold_fds_ is their number less the acceptor's at most one pending increment |
| HshaAdmission.AcceptIsExact | phxrpc/rpc/hsha_server.cpp:649-655 | in every reachable state a new connection is accepted if and only if fewer than MaxConnections are handed over and not finished |
| HshaAdmission.HandOffIsExact | phxrpc/rpc/hsha_server.cpp:656-665 | it goes to the unit whose turn it is unless that unit's accept queue is longer than 102400, and then it is closed; nothing else changes |
| HshaAdmission.LimitIsReached | phxrpc/rpc/hsha_server.cpp:649-665 | for any number of units and every number of connections up to the limit some run holds that many, so the bound is tight |
| HshaAdmission.HandOffsAreEven | phxrpc/rpc/hsha_server.cpp:656-657 | after k attempts each unit has been offered its share of them, the earlier units first |
| HshaAdmission.ShareIsFloorOrCeiling | phxrpc/rpc/hsha_server.cpp:656-657 | that share is k/n rounded down or up |
| HshaAdmission.AcceptQueueIsBounded | phxrpc/rpc/hsha_server.cpp:447-458 | a unit's accept queue holds at most one connection more than MAX_ACCEPT_QUEUE_LENGTH |
| HshaAdmission.RateIsPercentage | phxrpc/rpc/hsha_server.cpp:344-353 | over all runs the reject rate stays within 0..99 if and only if the adjust rate is not negative |
| HshaAdmission.RateRamps | phxrpc/rpc/hsha_server.cpp:344-353 | after k overloaded refreshes the rate is min(99, r + k * adjust), after k others max(0, r - k * adjust) |
| HshaAdmission.HshaServerQos.Refresh | phxrpc/rpc/hsha_server.cpp:338-356 | one turn of CalFunc: averages already seen change nothing, new ones count as one refresh of the rate's history |
| HshaAdmission.HshaServerQos.CanEnqueue | phxrpc/rpc/hsha_server.cpp:327-330 | exactly 100 - rate of the hundred draws let a request in |
| HshaAdmission.SplitWorkers | phxrpc/rpc/hsha_server.cpp:685-699 | the units' worker counts sum to MaxThreads, each is at least 1, all but the last are equal, the last has the remainder more |
| TimerHeap.SiftUpRestoresHeap | phxrpc/network/timer.cpp:66-79 | sifting up repairs a heap that is wrong only above one slot |
| TimerHeap.SiftDownRestoresHeap | phxrpc/network/timer.cpp:81-104 | sifting down repairs a heap that is wrong only below one slot |
| TimerHeap.InsertSpec | phxrpc/network/timer.cpp:106-110 | insertion keeps heap order and adds exactly one entry |
| TimerHeap.RemoveAtSpec | phxrpc/network/timer.cpp:112-137 | removal at any position keeps heap order and takes away exactly that entry |
| TimerHeap.PopMinSpec | phxrpc/network/timer.cpp:153-169 | popping keeps heap order and takes away exactly the root |
| TimerHeap.RootIsMinimumOfAll | phxrpc/network/timer.cpp:153-169 | the root is an earliest entry |
| TimerHeap.DrainSorts | phxrpc/network/timer.cpp:153-169 | popping until empty yields a permutation of the entries in order of time |
| Timers.Timer.HeapUp | phxrpc/network/timer.cpp:66-79 | the in-place loop is SiftUp and leaves every socket's timer_id equal to its index + 1 |
| Timers.Timer.HeapDown | phxrpc/network/timer.cpp:81-104 | the in-place loop is SiftDown and leaves every socket's timer_id equal to its index + 1 |
| Timers.Timer.AddTimer | phxrpc/network/timer.cpp:106-110 | one entry more, heap order and ids kept, no other socket's id touched unless it is stored |
| Timers.Timer.RemoveTimer | phxrpc/network/timer.cpp:112-137 | as written: exactly the named entry goes and heap order is kept; the ids stay right if and only if it was not the last of several |
| Timers.Timer.RemoveTimerGuarded | phxrpc/network/timer.cpp:112-137 | with the last-slot guard: the same, and the removed socket's id is always 0 afterwards |
| Timers.StaleIdRemovesAnotherTimer | phxrpc/network/timer.cpp:123-133 | the stale id later removes another socket's timer, unless the guard is there |
| Timers.Timer.PopTimeout | phxrpc/network/timer.cpp:153-169 | null if and only if empty; else an earliest entry goes, its socket's id becomes 0, heap order and the other ids are kept |
| Timers.Timer.GetNextTimeout | phxrpc/network/timer.cpp:139-151 | -1 without timers; 0 if and only if the earliest is reached or its gap is a multiple of 2^32; non-zero means nothing is due |
| Timers.Timer.GetSocketList | phxrpc/network/timer.cpp:171-177 | the stored sockets, in heap order, pairwise different |
| Timers.DrainTimer | phxrpc/network/timer.cpp:153-169 | repeated PopTimeout yields all timers once, earliest first, and leaves every id 0 |
| UThreadRuntimes.FreeListIsExact | phxrpc/network/uthread_runtime.cpp:51-112 | over every run the free list is acyclic and holds exactly the DONE slots, and the counter is the number of the others |
| UThreadRuntimes.VectorNeverGrowsPastNeed | phxrpc/network/uthread_runtime.cpp:56-73 | the slot vector is as long as the largest number of threads ever unfinished at once |
| UThreadRuntimes.AllDoneIsExact | phxrpc/network/uthread_runtime.cpp:118-120 | IsAllDone holds if and only if every slot is DONE |
| UThreadRuntimes.CreateSpec | phxrpc/network/uthread_runtime.cpp:51-75 | Create never returns a live index, and grows the vector only when no slot is free |
| UThreadRuntimes.DoneSpec | phxrpc/network/uthread_runtime.cpp:77-86 | a finished slot becomes the head of the free list |
| UThreadRuntimes.ResumeSpec | phxrpc/network/uthread_runtime.cpp:88-101 | resuming runs a thread if and only if its slot exists and is not DONE, and the stored status does not change |
| UThreadRuntimes.UThreadRuntime.CreateThread | phxrpc/network/uthread_runtime.cpp:51-75 | the method is Create on the fields and touches no other slot; a null function gives -2 and changes nothing |
| UThreadRuntimes.UThreadRuntime.ResumeThread | phxrpc/network/uthread_runtime.cpp:88-101 | the method is Resume on the fields: the slot becomes the current one if it is suspended, and RUNNING is written to a copy only |
| UThreadRuntimes.UThreadRuntime.YieldThread | phxrpc/network/uthread_runtime.cpp:103-112 | the method is Yield on the fields: no slot changes and none is current any more |
| UThreadRuntimes.UThreadRuntime.UThreadDoneCallback | phxrpc/network/uthread_runtime.cpp:77-86 | the method is Done on the fields: the current slot becomes DONE, no other does, and none is current any more |
| UThreadRuntimes.UThreadRuntime.IsAllDone | phxrpc/network/uthread_runtime.cpp:118-120 | true if and only if every slot is DONE |
| Schedulers.UThreadEpollScheduler.AddTimer | phxrpc/network/uthread_epoll.cpp:278-286 | the entry that the socket's id names is replaced by one for the socket at now + timeout_ms, or at 2^64 - 1 for timeout -1; with the guard that is its own entry, if any, and all other timers stay; as written it may be another socket's |
| Schedulers.UThreadEpollScheduler.RemoveTimer | phxrpc/network/uthread_epoll.cpp:288-292 | the timer that the id names goes and no other, with or without the guard; id 0 changes nothing |
| Schedulers.UThreadEpollScheduler.BeginWait | phxrpc/network/uthread_epoll.cpp:309-318 | a wait up to its yield stores one timer for the socket, which names the thread, and enters epoll only in UThreadPoll; timers name waiters again |
| Schedulers.UThreadEpollScheduler.EndWait | phxrpc/network/uthread_epoll.cpp:512-517 | after the wait the socket has no timer and is not in epoll, and everyone else waits as before |
| Schedulers.UThreadEpollScheduler.TimersNameDistinctSuspendedThreads | phxrpc/network/uthread_epoll.cpp:278-292 | with the scheduler in control, stored sockets are pairwise different and name pairwise different suspended threads |
| Schedulers.UThreadEpollScheduler.ResumeThread | phxrpc/network/uthread_runtime.cpp:88-101 | a suspended thread is switched to and takes its turn, any other index switches to nothing; whatever the thread does, timers name waiters afterwards and everyone else waits as before |
| Schedulers.UThreadEpollScheduler.ResumeEach | phxrpc/network/uthread_epoll.cpp:238-244 | the threads switched to are those of the listed sockets, once each and in order, and each finds its own event in its socket, whatever the earlier ones did |
| Schedulers.UThreadEpollScheduler.ResumeAll | phxrpc/network/uthread_epoll.cpp:204-210 | the threads switched to are those with a timer at the start, once each, although the heap changes meanwhile, and each finds the flag; with the guard these are all the waiting threads |
| Schedulers.UThreadEpollScheduler.TakeTurn | phxrpc/network/uthread_epoll.cpp:309-322 | a resumed thread first drops the timer of its last wait; then it waits with one new timer, or yields, or its slot is DONE; everyone else waits as before |
| Schedulers.UThreadEpollScheduler.FireEarliest | phxrpc/network/uthread_epoll.cpp:301-303 | an earliest timer is taken out, and the thread that its socket names finds the timeout event and is switched to |
| Schedulers.UThreadEpollScheduler.StartTask | phxrpc/network/uthread_epoll.cpp:185-187 | a task gets a slot in which nobody waits, and its thread is switched to at once and takes its turn |
| Schedulers.UThreadEpollScheduler.RunRound | phxrpc/network/uthread_epoll.cpp:236-270 | one turn of the loop: the threads switched to, what each finds in its socket, and the timers taken out are exactly those of its log, in order; pollers with events find the mask of their socket, waiters for active sockets are resumed, tasks started, timeouts handled until nothing is due with 0 for the thread; if epoll fails exactly the threads with a timer are woken and find -1, and after Close every waiting one has been (with the guard) and finds -2; whoever is not switched to waits on for the same socket, with the guard under the same timer |
| Schedulers.UThreadEpollScheduler.Run | phxrpc/network/uthread_epoll.cpp:229-276 | the same of every turn of the loop, each starting in the state that the one before it left, from the state after the first tasks to the final state; turns stop only after Close, an epoll failure, or when every slot is DONE, and then nobody waits and no timer is left |
| Schedulers.UThreadEpollScheduler.EpollWait | phxrpc/network/uthread_epoll.cpp:309-322 | the reported sockets, with their event masks, are those with events whose thread is in UThreadPoll, once each, and none whose thread is in UThreadWait |
| Schedulers.UThreadEpollScheduler.HandleEvents | phxrpc/network/uthread_epoll.cpp:237-244 | the threads switched to for events are exactly those that poll a socket with events, once each, and each finds the mask reported for its own socket; no thread in UThreadWait is among them |
| Schedulers.UThreadEpollScheduler.ResumeActive | phxrpc/network/uthread_epoll.cpp:246-252 | every thread that waits for a socket the active-socket function yields is switched to, also one in UThreadWait, and no thread is that none of these sockets named |
| Schedulers.UThreadEpollScheduler.DealwithTimeout | phxrpc/network/uthread_epoll.cpp:294-305 | the timers taken out of the heap are those listed, each an earliest one of the heap at that moment and reported due at its reading, and the threads switched to are those they name, each finding 0; when it returns by itself, no timer is due at the last reading |
| Schedulers.UThreadEpollScheduler.ConsumeTodoList | phxrpc/network/uthread_epoll.cpp:183-191 | one thread per task is switched to, in order, in slots where nobody waits; waiting threads keep waiting |
| SchedulerRuns.UnlimitedWaitReportedDue | phxrpc/network/timer.cpp:139-151 | a wait without timeout is reported as timed out if and only if the clock's low 32 bits are all ones |
| SchedulerRuns.LimitedWaitReportedExactly | phxrpc/network/uthread_epoll.cpp:278-286 | a wait with a timeout is reported as due if and only if timeout_ms has passed since its start, for every timeout from 0 up that an int holds and every start the clock's width allows; so only waits without timeout are ever misreported |
| SchedulerRuns.UnlimitedTimersComeLast | phxrpc/network/uthread_epoll.cpp:278-286 | in a drain, timers added with timeout -1 come after all others |
| HttpText.TrimmedLineOf | phxrpc/network/socket_stream_base.cpp:130-142 | a clean line comes back without its line end, and what follows stays unread |
| HttpText.DecimalRoundTrip | phxrpc/http/http_proto.cpp:162-163 | a status code that is printed and read by atoi is the same for every 32-bit int |
| HttpText.UnsignedRoundTrip | phxrpc/http/http_proto.cpp:113-117 | a length printed in decimal, or a chunk size in hexadecimal, is read back whatever non-digit follows |
| HttpText.NumeralRead | phxrpc/http/http_proto.cpp:312-338 | any numeral in base 10 or 16, in either case, with leading zeros, white space, a sign, and anything that is no digit behind it, is read as its positional value, limited to 64 bits and cut to an int |
| HttpText.DigitsValue | phxrpc/http/http_proto.cpp:113-117 | a number is written as the numeral with its positional value |
| HttpText.SpacesAre | phxrpc/http/http_proto.cpp:268-289 | white space is exactly tab, newline, vertical tab, form feed, carriage return and blank |
| HttpText.TrimRightExactly | phxrpc/network/socket_stream_base.cpp:130-142 | exactly terminators, newlines and carriage returns are trimmed at the end of a line |
| HttpText.SameNamesAre | phxrpc/http/http_msg.cpp:123-145 | two names are the same if and only if they agree letter by letter, where the letters A to Z match those with a code 32 higher |
| HttpReading.RequestLineRead | phxrpc/http/http_proto.cpp:229-257 | a request line of one to three parts is read part by part, cut to 15 characters, with defaults for missing parts, if it fits 1024 bytes with its end, and refused otherwise |
| HttpReading.StatusLineRead | phxrpc/http/http_proto.cpp:199-227 | a status line of one to three parts is accepted if and only if it fits and begins with HTTP in any case; a missing status is 200 and a missing reason OK |
| HttpReading.HeaderLineRead | phxrpc/http/http_proto.cpp:273-283 | a header line gives the name before the colon and the value after any white space |
| HttpReading.NoColon | phxrpc/http/http_proto.cpp:273-283 | a header line without a colon is a name without a value |
| HttpReading.ContinuationsAre | phxrpc/http/http_proto.cpp:268-289 | a line continues the header before it if and only if it begins with white space |
| HttpReading.LongHeaderRefused | phxrpc/http/http_proto.cpp:259-299 | a header line that does not fit 8192 bytes with its end is refused |
| HttpReading.UnfinishedLineRefused | phxrpc/network/socket_stream_base.cpp:130-142 | a line without its newline is an error for every reader |
| HttpReading.LookupIgnoresCase | phxrpc/http/http_msg.cpp:123-133 | changing the case of letters in header names changes no lookup |
| HttpReading.BodyIgnoresCase | phxrpc/http/http_proto.cpp:301-370 | nor does it change what is read as the body |
| HttpReading.LengthIsObeyed | phxrpc/http/http_proto.cpp:334-349 | without a promise of chunks a length under any spelling of Content-Length gives exactly that many bytes, and an error if they do not come |
| HttpReading.NegativeLengthMeansNone | phxrpc/http/http_proto.cpp:334-349 | a negative length means no content |
| HttpReading.ChunksArePromised | phxrpc/http/http_proto.cpp:304-309 | chunks are read if and only if the first Transfer-Encoding, in any case, says chunked, in any case |
| HttpReading.ShortChunkRefused | phxrpc/http/http_proto.cpp:309-333 | a chunk that does not come in full is an error |
| HttpReading.RequestText | phxrpc/http/http_proto.cpp:85-130 | the bytes of a request: start line, header lines, a length line if there is content and no length given, a blank line, and the content |
| HttpReading.ResponseText | phxrpc/http/http_proto.cpp:162-185 | the bytes of a response, likewise |
| HttpSpec.HeadersRoundTrip | phxrpc/http/http_proto.cpp:259-299 | any list of well-formed headers comes back in order, and the blank line ends it |
| HttpSpec.FoldedLinesJoin | phxrpc/http/http_proto.cpp:268-289 | continuation lines are appended, each trimmed on the left |
| HttpSpec.FoldedHeadersRoundTrip | phxrpc/http/http_proto.cpp:268-289 | any list of headers, each folded over any number of lines and possibly with nothing on its first line, comes back in order with the concatenation of its left-trimmed pieces as value |
| HttpSpec.ChunksRoundTrip | phxrpc/http/http_proto.cpp:309-333 | a chunked body whose sizes an int can hold, written in hexadecimal in either case and with any leading zeros, with anything after the size that fits the line buffer and is no digit, gives exactly the chunk data and stops after the last-chunk line |
| HttpSpec.ChunkedMessageLeavesItsBlankLine | phxrpc/http/http_proto.cpp:309-333 | the final blank line stays unread and is taken for the next request line, which comes out with an empty method |
| HttpRoundTrip.BodyRoundTrip | phxrpc/http/http_proto.cpp:301-370 | for all headers, the body comes back with exact framing if and only if they do not promise chunks and a given length agrees with it, or none is needed |
| HttpRoundTrip.ChunkedContentIsDecoded | phxrpc/http/http_proto.cpp:309-333 | content that the caller has put into the chunked coding himself, in any spelling of the sizes, comes back decoded, with the rest unread |
| HttpRoundTrip.RequestRoundTrip | phxrpc/http/http_proto.cpp:85-130 | a well-formed request is read back field by field with the rest unread, if and only if its headers do not promise chunks and a given Content-Length agrees with the content |
| HttpRoundTrip.ResponseRoundTrip | phxrpc/http/http_proto.cpp:162-370 | the same for a response, if and only if its headers do not promise chunks and it is delimited; for status 304, if and only if it has no content |
| HttpRoundTrip.UndelimitedResponseSwallowsTheRest | phxrpc/http/http_proto.cpp:350-360 | without content and length a response takes the following bytes as its content |
| HttpMessages.HttpMessage.AddHeader | phxrpc/http/http_msg.cpp:85-88 | the header list grows by one at its end |
| HttpMessages.HttpMessage.RemoveHeader | phxrpc/http/http_msg.cpp:97-109 | the first header of that name goes, in any case; true if and only if there was one |
| HttpMessages.HttpMessage.GetHeaderValue | phxrpc/http/http_msg.cpp:123-133 | the first match in any case, or null |
| HttpMessages.HttpMessage.IsKeepAlive | phxrpc/http/http_msg.cpp:135-145 | true if and only if Proxy-Connection or Connection says keep-alive, in any case |
| HttpMessages.HttpMessage.AppendContent | phxrpc/http/http_msg.cpp:60-70 | the bytes are appended; a length that is not positive means a C string |
| HttpSpec.Fit | phxrpc/http/http_msg.cpp:52-54 | what a fixed-size field keeps is the longest prefix of the text that fits |
| HttpMessages.HttpMessage.SetVersion | phxrpc/http/http_msg.cpp:52-54 | the text cut to its fixed-size field |
| HttpMessages.HttpMessage.SetMethod | phxrpc/http/http_msg.cpp:158-162 | the text cut to its fixed-size field |
| HttpMessages.HttpMessage.SetReasonPhrase | phxrpc/http/http_msg.cpp:254-256 | the text cut to its fixed-size field |
| HttpMessages.RemovalKeepsOthers | phxrpc/http/http_msg.cpp:97-109 | removing a header changes no other name's lookup |
| HttpMessages.RemovalIsComplete | phxrpc/http/http_msg.cpp:97-109 | a removed name is gone if and only if it was there at most once |
| HttpProto.TcpStream.GetlineWithTrimRight | phxrpc/network/socket_stream_base.cpp:130-142 | the buffer then holds the trimmed line as a C string, or the line was too long or unfinished |
| HttpProto.Strsep | phxrpc/http/http_proto.cpp:37-53 | the string is cut in place at the first separator; null in, or no separator, gives null |
| HttpProto.RecvReqStartLine | phxrpc/http/http_proto.cpp:229-257 | up to three parts are stored, cut to their fields; missing parts keep what was there |
| HttpProto.RecvRespStartLine | phxrpc/http/http_proto.cpp:199-227 | a line that does not begin with HTTP in any case is refused; else the parts are stored |
| HttpProto.RecvHeaders | phxrpc/http/http_proto.cpp:259-299 | the loop adds exactly the headers of ReadHeaders and leaves its rest unread, or fails when it fails |
| HttpProto.RecvPieces | phxrpc/http/http_proto.cpp:320-329 | reading in pieces of at most MAX_RECV_LEN appends exactly the counted bytes, or fails at the end of the stream |
| HttpProto.RecvChunks | phxrpc/http/http_proto.cpp:309-333 | the loop is ReadChunks |
| HttpProto.RecvUntilClose | phxrpc/http/http_proto.cpp:350-360 | everything up to the end of the stream is appended |
| HttpProto.RecvBody | phxrpc/http/http_proto.cpp:301-370 | the branch that the headers select is ReadBody |
| HttpProto.RecvReq | phxrpc/http/http_proto.cpp:187-197 | reading a new request is ReadRequest |
| HttpProto.RecvResp | phxrpc/http/http_client.cpp:73-79 | the client's reading of a response is ReadResponse |
| HttpProto.SendResp | phxrpc/http/http_proto.cpp:162-185 | writes PrintResponse |
| HttpProto.SendReq | phxrpc/http/http_client.cpp:57-63 | writes PrintRequest with the method and the target made from the parameters |
| HttpProto.SendAndReceive | phxrpc/http/http_proto.cpp:85-130 | a request written by one side and read by the other is the same request, what follows stays unread, and the URI and all fitting parameters can be read from the target |
| HttpProto.BuildUrl | phxrpc/http/http_proto.cpp:88-101 | the loop over the parameters builds the URI and the query from the reused buffer |
| HttpQuery.QueryOfFitting | phxrpc/http/http_proto.cpp:88-101 | when every parameter fits its buffer, the query is the encoded parameters, whatever the buffer held |
| HttpQuery.QueryRoundTrip | phxrpc/http/http_proto.cpp:88-101 | a form reader gets every parameter back from the query, whatever characters it contains |
| HttpQuery.TargetGivesParamsBack | phxrpc/http/http_proto.cpp:88-103 | the target made from a URI and fitting parameters keeps the start line in three parts, and gives the URI and every parameter back |
| HttpQuery.ParamsAreTokenText | phxrpc/http/http_proto.cpp:88-101 | the query adds no blank or line end to the start line |
| UrlEncoding.URLEncode | phxrpc/http/http_proto.cpp:55-83 | writes what Encode says and nothing beyond; outside the buffer only for limits 1 and 2 |
| UrlEncoding.BoundIsExact | phxrpc/http/http_proto.cpp:55-83 | the terminator stays inside the buffer if and only if the limit is 0 or at least 3, or no byte before the limit needs escaping |
| UrlEncoding.SafeLimits | phxrpc/http/http_proto.cpp:55-83 | the limits that are safe for every source are 0 and those from 3 up |
| UrlEncoding.FitsExactly | phxrpc/http/http_proto.cpp:55-83 | for 7-bit sources the whole encoding is written if and only if it fits |
| UrlEncoding.LongestPrefixIsWritten | phxrpc/http/http_proto.cpp:55-83 | within a safe limit the encoding of the longest prefix that fits is written, and a byte is stepped over if and only if room is left but the next character does not fit |
| UrlEncoding.DecodeUndoesEncode | phxrpc/http/http_proto.cpp:55-83 | form decoding returns the source |
| UrlEncoding.EncodeIsInjective | phxrpc/http/http_proto.cpp:55-83 | two 7-bit sources that fit and are encoded alike are equal |
| UrlEncoding.EncodedCharacter | phxrpc/http/http_proto.cpp:55-83 | letters and digits stay, a blank becomes a plus sign, any other 7-bit character a percent sign and two lower-case hexadecimal digits of its code |
| UrlEncoding.EncodedPieces | phxrpc/http/http_proto.cpp:55-83 | a text is encoded character by character |
| SocketStreams.BaseTcpStreamBuf.Sync | phxrpc/network/socket_stream_base.cpp:67-84 | it succeeds if and only if no send fails; then the put area has been sent, once and in order, and is empty; otherwise order is kept if and only if nothing had been sent |
| SocketStreams.BaseTcpStreamBuf.Overflow | phxrpc/network/socket_stream_base.cpp:86-96 | it succeeds if and only if no send fails; then the area was sent first and holds the new byte, and sent bytes followed by the area are the bytes written |
| SocketStreams.BaseTcpStreamBuf.WriteAndFlush | phxrpc/network/socket_stream_base.cpp:67-96 | for any partial sends it succeeds if and only if none fails, and then the peer has been sent exactly what was written |
| SocketStreams.BaseTcpStreamBuf.Underflow | phxrpc/network/socket_stream_base.cpp:56-65 | no byte if and only if the receive yields nothing; else the refilled area is what was received, and bytes read followed by the area are the bytes received |
| SocketStreams.BaseTcpStreamBuf.Read | phxrpc/network/socket_stream_base.cpp:56-65 | reading any number of bytes yields the next received bytes in order, and fewer if and only if a receive yields nothing |

## Left out

- System calls, context switching and stacks: sockets, epoll, the notifier pipe and its user thread, ucontext and boost contexts are nondeterministic events here.
- The server unit and the queue in the form of classes with methods: they are concurrent, so they are transition systems on values; aliasing between objects appears only as ownership.
- Weak memory order: the atomic counters and flags are read and written in one total order.
- Reuse of memory addresses: a freed request, response or socket record never comes back under the same name.
- Shutdown: what is still in the queues of a unit after `break_out` is abandoned by the code; only the queue's own behaviour after it is modelled.
- Schedulers.UThreadEpollScheduler.DealwithTimeout: the clock readings and what each resumed thread does are given as a finite list, because the loop need not end; the contract covers every finite part of it.
- Schedulers.UThreadEpollScheduler.Run: likewise takes a finite list of turns; tasks that running threads add are those of a later turn.
- Schedulers.UThreadEpollScheduler.TakeTurn: a thread that names a socket another thread already waits for just yields; two threads waiting for one socket are not modelled.
- The return codes and errno values of `UThreadPoll`, and the `UThreadPoll` over several sockets with its own epoll.
- `StatEpollwaitEvents` and the throttling of `NotifyEpoll`: heuristics without protocol meaning.
- `HshaServerStat` counters, monitors and logging, except `hold_fds_` and the averages that feed the load control.
- Date, Server and keep-alive header fixing in responses, client IP: clock formatting and plain assignments.
- HttpProto.TcpStream.Getline: the stream under the HTTP reader is the bytes the peer delivers before it closes; that buffering does not change them is proved about the stream class. A receive error counts as the end of the stream, as it does in the code.
- HttpProto.SendResp: write errors and their return codes are not modelled; a failed flush is described at the stream class.
- Bytes above 127 in headers and start lines: the case comparison and white-space tests are those of the C locale.
- Negative queue limits, which the code converts to huge unsigned ones, and counters that overflow an int.
- `Config`, option parsing, caller classes, file utilities, `codegen/` and `tools/`: wrappers, I/O and text generation.
