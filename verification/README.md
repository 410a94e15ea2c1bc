# A verified model of a reactor TCP library

The library is a C++20 reactor in the style of muduo: an event loop over poll(2) or epoll, a functor
queue, timers, and TCP connections, servers and clients on top. This project models its core in Dafny
and proves what its parts promise over whole runs.

Every component comes in two layers.

* A module of **steps**: datatypes and functions that say what each call does to the state, plus the
  lemmas about all runs. The kernel and the user are adversaries: what write, read, readv, poll,
  connect and getsockopt return, every clock reading, and when callbacks call back are parameters.
  In the server, the client and the connector a failed assert sets a flag and ends the run, so that
  "no assert fails" is a theorem; in the smaller components the asserts on callers are preconditions.
* A module with the **class** in the source's own form: fields, arrays, loops and shared objects. Its
  methods are proved against the step functions. Server, connector and client hold real connection and
  channel objects on one loop with a real `Epoller`, so a mask change there runs down to the index states
  and the kernel's epoll set; a method returns false where an assert of the source stops the program.

| component | steps | classes |
|---|---|---|
| byte buffer | `BufferLayout` | `Buffers` |
| interest masks, event dispatch | `Channels` | `Channels` |
| sending and graceful close | `ConnectionOutput` | `Connections` |
| poller registries | `Registry`, `PollTable`, `EpollSet`, `PollersAgree` | `Pollers`, `Loops` |
| functor queue and wakeup | `TaskQueue` | `EventLoops` |
| timers | `TimerLists` | `TimerQueues` |
| connector and client | `ConnectorSteps`, `ClientSteps` | `Connectors`, `Clients` |
| single-loop server | `ServerSteps` | `Servers` |
| life cycle of a connection object | `ServerSteps`, `ClientSteps` | `LiveConnections` |

`dafny verify dfyconfig.toml` checks everything.

## Main results

1. **Byte stream.** Whatever the kernel takes of each write and whichever thread calls: the socket has
   exactly the bytes the writes returned; with the bytes in the output buffer they are the messages of the
   calls, the loop thread's where it sent them and those of other threads where their functors ran, in the
   order of the calls. So it is for a connection object with its real array, through every compaction and
   resize (`TcpConnection.Drive`).
2. **Graceful close.** With calls from any threads up to `handle_close`: after SHUT_WR nothing is written,
   buffered or shut down again, if and only if no functor of another thread's shutdown or non-empty send
   runs after it; in such a run SHUT_WR is issued at most once, with every accepted byte on the wire.
   With calls on the loop thread only, it has been issued exactly when the connection is disconnecting
   and everything accepted is on the wire.
3. **Server life cycle.** A run of a single-loop server fails no assert and never has a destroyed
   connection registered, if and only if neither of two events occurs: an event that closes a connection
   twice, and a send from another thread that leaves bytes over and runs after the connection was
   destroyed (see the next section). At every poll each connection is either in the map or was erased,
   destroyed and reported down exactly once, and poll(2) and epoll watch the same: the connections in the
   map. A real server object driven through any such run ends that way, down to its `Epoller`'s kernel set
   (`TcpServer.Serve`).
4. **Client life cycle.** A client, with sends and shutdowns from any thread, fails no assert, never has
   two of {registered connecting channel, pending retry timer, live connection} and never has a destroyed
   connection registered, if and only if none of three events occurs: those two, and a retry timer that
   fires in the iteration that armed it. A real client object gets through a run without a failed assert
   or a dead registration if and only if none does, and is then settled at every poll, down to the kernel
   set (`TcpClient.Drive`). After `disconnect` or `stop` it does not reconnect, and after `stop` it makes
   nothing at all, until `connect` is called. Sockets made by the connector are owned linearly, and what
   becomes of each is told by errno and the event.
5. **Functor queue.** Under every interleaving functors run once each, in push order, in the first batch
   swapped after their push; no wakeup is lost if and only if the loop is not entered with functors
   pending that nobody has announced; and when nothing more is queued the loop is asleep again after one
   iteration.
6. **Pollers.** Both registries represent the same interest map after any run that meets their asserts;
   epoll_ctl is never refused; they watch the same descriptors if and only if no muted channel is armed
   again.
7. **Timers.** Through callbacks that re-enter the queue, it stays sorted, no timer is in it twice, every
   key equals its timer's expiration, and a firing conserves timers; the kernel timer goes off exactly when
   the last moment it was armed for asks, never before, and covers the earliest key if and only if it is
   never armed for a moment already past. A real queue driven through any operations does the same, and
   stops the program exactly at a firing with a key equal to the time (`TimerQueue.Drive`).
8. **Buffer.** It is a byte queue, and with M the most bytes ever held its array is 1032 bytes for M up to
   1024 and at most 2M + 7 above; the bound is attained at every M. Both hold of a real buffer object
   driven through any run (`Buffers.Drive`).

## Where the code departs from its intent

The model follows the code. Where a property fails, a run shows it and the exact condition is proved.

* `wakeup` reads the event counter although its log text speaks of writing. As written the counter never
  leaves 0 (`ReadingNeverCounts`, `ReadingLosesWakeup`); `NeverLostIff` is about the write.
* A functor that the loop thread queues before it enters its loop gets no wakeup
  (`EarlyPushLosesWakeupIff`; the exact condition over all runs is `NeverLostIff`).
* With other threads about, SHUT_WR can be issued twice (`ShutdownElsewhereShutsTwice`,
  `ShutdownBehindSendShutsTwice`, `RefusedSendShutsTwice`) and bytes can be written after it
  (`SendBehindDrainIsLate`); the exact condition over all runs is `AlwaysQuietIff`.
* A send from another thread can put a destroyed connection back into the poller (`LateSendBreaks`), whose
  next hang-up then fails an assert (`DeadConnectionFails`; `LateSendFromStart` is a whole run). Both hold
  of the server and of the client.
* One event with POLLHUP, without POLLIN, with POLLPRI or POLLRDHUP, whose read returns 0 closes a
  connection twice (`DoubleCloseBreaks` for server and client, `DoubleCloseFromStart`).
* A retry timer that fires in the iteration that armed it finds the old channel (`FreshTimerBreaks`).
* `Poller` never restores a muted descriptor (`RearmedChannelIsMissed`) and leaves a stale index on
  removal, so a removed channel must not be registered again.
* `get_expired` stops the program if a key equals the current time (`HandleRead`).
* `cancel_in_loop` erases by key (`CancelIsExactIff`, `CancelDropsTwin`) and cannot see the batch being
  run (`ExpiredRepeaterCannotBeCancelled`).
* `how_much_time_from_now` turns a past deadline into one more than 292 000 years ahead
  (`TimeSpecRecombines`, `LateAddIsLost`); a cancelled timer's alarm can lead there
  (`SpuriousFiringLosesTimer`).
* The retry delay is never doubled (`RetryDelayNeverGrows`).

## Model

| member | source | states |
|---|---|---|
| BufferLayout.Reserve | buffer/Buffer.hpp:150-162 | both branches of make_space leave room for the request and keep the content; the compacting one is reached only with the reader index above 8 |
| BufferLayout.Append | buffer/Buffer.hpp:86-97 | the content is the old content followed by the bytes appended |
| BufferLayout.ReadFd | buffer/Buffer.cpp:16-23 | the content is the old content followed by all bytes read, the part that overflowed the array included |
| BufferLayout.RefinesByteQueue | buffer/Buffer.hpp:64-97 | after any run of appends, retrievals and reads the readable bytes are those of a plain byte queue |
| BufferLayout.CapacityStaysBounded | buffer/Buffer.hpp:150-162 | over any run the array is 1032 bytes while at most 1024 are held at once, and otherwise at most 2M + 7 |
| BufferLayout.CapacityBoundIsTight | buffer/Buffer.hpp:150-152 | every peak has a run whose array is exactly that long |
| Buffers.Buffer.constructor | buffer/Buffer.hpp:30-37 | an empty buffer of 1032 bytes with both indices at 8 |
| Buffers.Buffer.Retrieve | buffer/Buffer.hpp:64-67 | drops exactly the first len readable bytes |
| Buffers.Buffer.RetrieveAll | buffer/Buffer.hpp:75-78 | empties the buffer and resets both indices |
| Buffers.Buffer.RetrieveAsString | buffer/Buffer.hpp:80-84 | returns all readable bytes and empties the buffer |
| Buffers.Buffer.Compact | buffer/Buffer.hpp:154-161 | the overlapping forward copy moves the readable bytes to the front unchanged |
| Buffers.Buffer.Grow | buffer/Buffer.hpp:151-152 | a resize keeps the readable bytes and the indices |
| Buffers.Buffer.EnsureWritableBytes | buffer/Buffer.hpp:99-104 | keeps, compacts or grows so that the request fits |
| Buffers.Buffer.Append | buffer/Buffer.hpp:92-97 | the readable bytes grow by exactly the bytes appended, in the real array |
| Buffers.Buffer.ReadFd | buffer/Buffer.cpp:6-25 | appends exactly the bytes readv delivered wherever the split falls, and nothing on error |
| Buffers.Drive | buffer/Buffer.hpp:64-97 | a real buffer driven through any allowed run holds in its array what a plain byte queue would hold, returns the strings it would return, and keeps to the capacity bound |
| Channels.InterestMatchesBits | event_loop/Channel.hpp:38-44 | the flag updates and tests are the source's bit operations and no two masks coincide |
| Channels.DispatchMatchesFlags | event_loop/Channel.cpp:28-51 | which callbacks an event makes, in which order, and that close and read both run exactly for POLLHUP without POLLIN with POLLPRI or POLLRDHUP |
| ConnectionOutput.StepConservesStream | tcp/TcpConnection.cpp:143-166 | each step puts on the wire exactly the bytes the kernel took of those offered, a write-ready event exactly the first r buffered ones, and keeps the rest; a write-complete call is queued exactly on a whole direct write or a drain, so only when all is on the wire |
| ConnectionOutput.StreamIsConserved | tcp/TcpConnection.cpp:67-94 | over every run, from any threads and with any write results, wire plus buffer is the concatenation of the accepted messages |
| ConnectionOutput.WireIsWhatTheKernelTook | tcp/TcpConnection.cpp:67-94 | over every run the socket has what each write returned, one after the other |
| ConnectionOutput.StateFollowsCalls | tcp/TcpConnection.cpp:96-102 | over every run the state is what the calls alone make it |
| ConnectionOutput.FunctorsInCallOrder | event_loop/EventLoop.cpp:160-169 | over every run the functors run are the first of those handed over, the others are still queued, all in call order, and only calls that find the connection connected hand one over |
| ConnectionOutput.StreamIsInCallOrder | tcp/TcpConnection.cpp:57-65 | over every run wire plus buffer is the messages of the calls, those of other threads in call order |
| ConnectionOutput.StepShutsIff | tcp/TcpConnection.cpp:96-109 | SHUT_WR is issued exactly by a shutdown or its functor while not writing, or by the drain a pending shutdown waits for; the exchange succeeds exactly from Connected |
| ConnectionOutput.NothingAfterClose | tcp/TcpConnection.cpp:168-177 | after handle_close or the teardown nothing is written until a message arrives, whatever is buffered |
| ConnectionOutput.AtMostOneShutdownScheduled | tcp/TcpConnection.cpp:96-102 | the compare-exchange succeeds at most once in a connection's life |
| ConnectionOutput.GracefulClose | tcp/TcpConnection.cpp:104-109 | writing is enabled exactly while bytes are buffered, and SHUT_WR has been issued exactly when disconnecting with every accepted byte on the wire |
| ConnectionOutput.NothingAfterShutdown | tcp/TcpConnection.cpp:57-65 | after SHUT_WR no byte is written and no second SHUT_WR issued |
| ConnectionOutput.AlwaysQuietIff | tcp/TcpConnection.cpp:57-109 | over every run of calls from any threads up to handle_close, nothing is written, buffered or shut down after SHUT_WR iff no functor of a shutdown or a non-empty send runs after it; then SHUT_WR is issued at most once, with every accepted byte on the wire |
| ConnectionOutput.StepIsQuietIff | tcp/TcpConnection.cpp:57-109 | one step breaks the silence after SHUT_WR iff it runs such a functor, and otherwise keeps the invariant of a graceful close |
| ConnectionOutput.ShutdownElsewhereShutsTwiceIff | tcp/TcpConnection.cpp:96-109 | one run shape: nothing queued, then a shutdown on another thread, only write-ready events, and its functor; SHUT_WR is issued twice iff bytes were buffered at the call and drained before the functor |
| ConnectionOutput.ShutdownElsewhereShutsTwice | tcp/TcpConnection.cpp:96-109 | a run from a fresh connection: a shutdown on another thread while bytes are buffered, then a drain |
| ConnectionOutput.ShutdownBehindSendShutsTwice | tcp/TcpConnection.cpp:57-109 | a run with nothing buffered at the shutdown, which is queued behind a send |
| ConnectionOutput.SendBehindDrainIsLate | tcp/TcpConnection.cpp:57-65 | a run in which a queued send runs after a drain has issued SHUT_WR |
| ConnectionOutput.RefusedSendShutsTwice | tcp/TcpConnection.cpp:67-94 | a run in which the kernel refuses a late send, whose byte then goes out behind SHUT_WR and is followed by another one |
| ConnectionOutput.SendElsewhereWritesAfterShutdownIff | tcp/TcpConnection.cpp:57-65 | one run shape: nothing queued, a send on another thread, a loop-thread shutdown and the functor at once; it writes after SHUT_WR iff nothing was buffered and the kernel takes a byte |
| Connections.TcpConnection.SendInLoop | tcp/TcpConnection.cpp:67-94 | direct write, then the rest into the real buffer, as the step says |
| Connections.TcpConnection.Send | tcp/TcpConnection.cpp:57-65 | sends only while connected |
| Connections.TcpConnection.CompareExchange | tcp/TcpConnection.cpp:96-98 | succeeds exactly from Connected |
| Connections.TcpConnection.Shutdown | tcp/TcpConnection.cpp:96-102 | the compare-exchange loop ends after at most one success and runs shutdown_in_loop once |
| Connections.TcpConnection.ShutdownInLoop | tcp/TcpConnection.cpp:104-109 | SHUT_WR only when not writing |
| Connections.TcpConnection.HandleWrite | tcp/TcpConnection.cpp:143-166 | takes exactly the r bytes the kernel took off the real buffer; on drain stops writing and finishes a pending shutdown |
| Connections.TcpConnection.RunQueued | tcp/TcpConnection.cpp:57-65 | a functor of another thread sends or shuts down whatever the state is by then |
| Connections.TcpConnection.Drive | tcp/TcpConnection.cpp:57-177 | for any allowed run on a real connection, wire plus the readable part of the array is what both held before plus the messages in call order, the wire grew by what each write returned, and the functors left are queued in call order; unless a functor breaks the close, SHUT_WR comes at most once and leaves nothing to write |
| PollTable.UpdateKeepsBijection | poller/Poller.cpp:49-79 | update_channel keeps indices and slots in bijection |
| PollTable.UpdateKeepsOthers | poller/Poller.cpp:64-78 | update_channel leaves every other channel's slot contents unchanged |
| PollTable.RemoveKeepsBijection | poller/Poller.cpp:81-107 | swap-with-last removal keeps the bijection, repairs the moved index, and leaves every other channel's slot contents unchanged, descriptor 0 and muted last slots included |
| PollTable.RemovalIsAllowedIff | poller/Poller.cpp:81-92 | the asserts of remove_channel on its slot hold exactly when the interest map allows the removal |
| Registry.MapIsTheLog | poller/Poller.cpp:49-107 | a descriptor is registered iff its last call was an update, with that mask, and muted iff an update but the first since its registration was empty |
| PollTable.Run | poller/Poller.cpp:49-107 | after any allowed run the table represents the interest map with its sign-encoded mute flags |
| PollTable.WatchesUnmuted | poller/Poller.cpp:74-77 | poll(2) watches exactly the wanted descriptors never muted since registration |
| PollTable.WatchesWantedIff | poller/Poller.cpp:72-77 | poll(2) watches what is wanted iff no muted descriptor is wanted again |
| PollTable.ReadyIsExact | poller/Poller.cpp:32-47 | the slots reported are exactly those with events, each as often as it occurs, the k-th one standing at the k-th place with a report |
| PollTable.PlacesIncrease | poller/Poller.cpp:32-47 | these places increase and are exactly those with a report |
| Pollers.Poller.UpdateChannel | poller/Poller.cpp:49-79 | the array, the map and the channel's index move as the table says, and its asserts hold |
| Pollers.Poller.RemoveChannel | poller/Poller.cpp:81-107 | the array, the map and the moved channel's index move as the table says; the removed channel keeps its stale index |
| Pollers.Poller.FillActiveChannels | poller/Poller.cpp:32-47 | the early-exit scan returns exactly the ready channels, each once, in slot order and with its own revents, every lookup succeeds, and no other channel is touched |
| EpollSet.Run | poller/Epoller.cpp:77-139 | after any allowed run: added iff in the kernel set with the channel's mask, deleted only with an empty mask, and no epoll_ctl call refused |
| EpollSet.RefusalIsCounted | poller/Epoller.cpp:126-139 | a call the kernel refuses is counted and leaves the set alone |
| EpollSet.ReplayIsRun | poller/Epoller.cpp:77-139 | the set that an allowed log of calls leads to is the one its run leads to |
| EpollSet.WatchesWanted | poller/Epoller.cpp:77-105 | epoll watches exactly what is wanted |
| EpollSet.ClosePathCalls | poller/Epoller.cpp:77-124 | on the close path the second disable adds the descriptor again with an empty mask just before removal deletes it |
| Pollers.Epoller.Control | poller/Epoller.cpp:126-139 | epoll_ctl accepts ADD only for an absent descriptor, MOD and DEL only for a present one, and counts what it refuses |
| Pollers.Epoller.UpdateChannel | poller/Epoller.cpp:77-105 | the index states and kernel calls follow the set |
| Pollers.Epoller.RemoveChannel | poller/Epoller.cpp:107-124 | the channel leaves the map and the kernel set, and its index is new again |
| EpollSet.LoggedRepresents | poller/Epoller.cpp:77-139 | whatever calls have been logged, the set they led to represents the interest map they led to |
| Loops.Loop.SetMask | event_loop/EventLoop.cpp:126-130 | a mask change of a real channel reaches the poller's map, its index state and the kernel set, and the calls so far still meet the pollers' asserts |
| Loops.Loop.RemoveChannel | event_loop/EventLoop.cpp:132-136 | a muted channel leaves the poller's map and the kernel set, and the calls so far still meet the pollers' asserts |
| PollersAgree.WatchTheSameIff | poller/Poller.cpp:49-107 | after any allowed run both pollers watch the same pairs iff no muted channel is armed again |
| PollersAgree.WatchTheSame | poller/Epoller.cpp:77-139 | programs that never re-arm a muted channel cannot tell the pollers apart |
| PollersAgree.RearmedChannelIsMissed | poller/Poller.cpp:72-77 | a channel armed, muted and armed again is watched by epoll and not by poll(2) |
| TaskQueue.FirstInFirstOut | event_loop/EventLoop.cpp:187-200 | under every interleaving, run plus batch plus pending is the push order, and each functor runs in the first batch swapped after its push |
| TaskQueue.BatchOnlyShrinks | event_loop/EventLoop.cpp:196-199 | the batch loop starts no more functors than the batch held, however many are queued meanwhile |
| TaskQueue.NeverLostIff | event_loop/EventLoop.cpp:160-177 | with wakeup writing, over every run the loop never sleeps on pending functors without a wakeup counted or under way, iff whenever it is entered nothing is pending, or the counter is up, or a thread is between push and wakeup |
| TaskQueue.NoLostWakeup | event_loop/EventLoop.cpp:160-177 | so no wakeup is lost in a run that queues nothing on the loop thread before the loop is entered |
| TaskQueue.CounterCounts | event_loop/EventLoop.cpp:171-185 | with wakeup writing, the counter is the number of wakeups since it was last read, and its channel is never handled for nothing |
| TaskQueue.QuietIterationSleeps | event_loop/EventLoop.cpp:92-101 | when nothing more is queued, the loop is back in poll after one iteration with the counter at zero and nothing pending |
| TaskQueue.OneWakeupPerPush | event_loop/EventLoop.cpp:160-169 | another thread makes one wakeup for each push, the loop thread at most one |
| TaskQueue.EarlyPushLosesWakeupIff | event_loop/EventLoop.cpp:160-169 | a loop thread that, with no other thread about, queues functors and then enters its loop sleeps on them iff it queued any |
| TaskQueue.ReadingNeverCounts | event_loop/EventLoop.cpp:171-177 | with wakeup as written the counter never leaves 0 |
| TaskQueue.ReadingLosesWakeup | event_loop/EventLoop.cpp:171-177 | a concrete run that is lost as written and not lost when wakeup writes |
| EventLoops.DrainsLevelByLevel | event_loop/EventLoop.cpp:187-200 | functors that queue functors are drained after exactly as many iterations as they nest, each having run once |
| EventLoops.EventLoop.QueueInLoop | event_loop/EventLoop.cpp:160-169 | appends, and wakes the loop exactly while functors are being called |
| EventLoops.EventLoop.Call | event_loop/EventLoop.cpp:196-198 | a functor runs once and what it queues is appended in order, with a wakeup each |
| EventLoops.EventLoop.DoPendingFunctors | event_loop/EventLoop.cpp:187-200 | runs exactly what was pending, in order; what that queues waits for the next iteration |
| EventLoops.EventLoop.Iterate | event_loop/EventLoop.cpp:92-101 | n iterations run the first n levels |
| TimerLists.TimeSpecRecombines | time_utils/TimerQueue.cpp:29-42 | seconds and nanoseconds recombine exactly; the interval is max(100, difference) iff the deadline is not past |
| TimerLists.RunKeepsWellFormed | time_utils/TimerQueue.cpp:100-175 | over every run, whatever callbacks add or cancel, the queue is sorted and holds no timer twice |
| TimerLists.InsertIsSorted | time_utils/TimerQueue.cpp:151-160 | insertion keeps the queue sorted and puts the timer behind all those with its expiration |
| TimerLists.FiringConserves | time_utils/TimerQueue.cpp:110-149 | for every callback script: the batch is exactly the timers due before now in key order; the callbacks do to the rest what the same calls do at any other time; one-shots have left, repeaters are back at now plus interval, the queue is sorted and the alarm armed for its first key |
| TimerLists.CallbacksAreOperations | time_utils/TimerQueue.cpp:117-119 | what callbacks add and cancel while their batch is run has the effect it has at any other time, in order |
| TimerLists.ActEffect | time_utils/TimerQueue.cpp:100-108 | an addition puts exactly one timer into the queue and arms only for a new earliest one; a cancellation of a timer not queued has no effect |
| TimerLists.KeyedAtIff | time_utils/TimerQueue.cpp:124-126 | the assert of get_expired fails exactly if some timer is due at the current time |
| TimerLists.ArmsExactly | time_utils/TimerQueue.cpp:29-42 | the alarm is set for the expiration but at least 100 microseconds ahead; for a past moment it is 2^64 microseconds off |
| TimerLists.AlarmIsExact | time_utils/TimerQueue.cpp:70-149 | over every run, re-entrant callbacks included, the alarm goes off exactly when the last moment it was armed for asks, and never before it |
| TimerLists.ExpiredRepeaterCannotBeCancelled | time_utils/TimerQueue.cpp:166-175 | an expired repeater is back after the firing whatever the callbacks cancel |
| TimerLists.CancelIsExactIff | time_utils/TimerQueue.cpp:166-175 | cancelling removes that timer and no other iff no other has its expiration |
| TimerLists.CancelDropsTwin | time_utils/TimerQueue.cpp:166-175 | two timers with one expiration are both dropped by one cancel |
| TimerLists.AlwaysCoveredIff | time_utils/TimerQueue.cpp:70-149 | between operations the kernel timer covers the earliest key iff no operation arms it for a moment already past |
| TimerLists.LateAddIsLost | time_utils/TimerQueue.cpp:29-34 | any timer added to an empty queue for a moment already past is armed more than 292 000 years ahead |
| TimerLists.CancelledButArmed | time_utils/TimerQueue.cpp:166-175 | a run after which the kernel is still armed for a cancelled timer |
| TimerLists.SpuriousFiringLosesTimer | time_utils/TimerQueue.cpp:110-149 | a run from the empty queue: that kernel timer goes off with nothing due, is re-armed after the remaining key has passed, and the remaining timer is lost |
| TimerQueues.Timer.Restart | time_utils/Timer.cpp:3-9 | a repeater expires one interval after now, a one-shot becomes invalid |
| TimerQueues.TimerQueue.Insert | time_utils/TimerQueue.cpp:151-160 | inserts after equal keys and says whether the earliest key changed |
| TimerQueues.TimerQueue.AddTimer | time_utils/TimerQueue.cpp:100-108 | re-arms only for a new earliest timer, and then exactly for its expiration |
| TimerQueues.TimerQueue.CancelTimer | time_utils/TimerQueue.cpp:166-175 | the search finds the timer and erases its whole key |
| TimerQueues.TimerQueue.Perform | time_utils/TimerQueue.cpp:93-108 | an addition or cancellation outside a firing keeps every key equal to its timer's expiration and no timer in the queue twice |
| TimerQueues.TimerQueue.RunBatch | time_utils/TimerQueue.cpp:117-119 | the callbacks of the batch run once each, in order, and may add and cancel |
| TimerQueues.TimerQueue.PutBack | time_utils/TimerQueue.cpp:135-140 | a repeater that is out of the queue is restarted and inserted under its new expiration |
| TimerQueues.TimerQueue.GetExpired | time_utils/TimerQueue.cpp:124-130 | takes out exactly the entries before now, unless a key equals now |
| TimerQueues.TimerQueue.Reset | time_utils/TimerQueue.cpp:132-149 | restarts and puts back only timers that are out of the queue, then arms exactly for the earliest |
| TimerQueues.TimerQueue.HandleRead | time_utils/TimerQueue.cpp:110-122 | runs each due timer once, in order; every key equals its timer's expiration before and after, with callbacks that add and cancel |
| TimerQueues.TimerQueue.Drive | time_utils/TimerQueue.cpp:93-149 | a real queue driven through any operations ends as the run does, in order and in sync with its timers; it stops exactly at a firing with a key equal to the time, its alarm is exact, and if it is never armed late the kernel timer covers the earliest key |
| ConnectorSteps.SocketsAreLinear | tcp/Connector.cpp:53-173 | over every run each socket has exactly one owner, none is closed or handed over twice or both, and the channel is registered exactly while connecting |
| ConnectorSteps.EventByFlags | event_loop/Channel.cpp:39-49 | an event on the connecting channel runs the error callback first and the write callback second |
| ConnectorSteps.EventIsResolved | tcp/Connector.cpp:127-160 | while connecting no assert fails in an event, the write callback finds nothing to do after the error callback, and the socket is handed over iff the event brings no error and the socket is wanted and usable |
| ConnectorSteps.ConnectIsLinear | tcp/Connector.cpp:53-113 | connect keeps every socket's single owner; connecting is under way exactly for errno 0, 4, 106 and 115, and a timer is set exactly for 11, 98, 99, 101 and 111 if still wanted |
| ConnectorSteps.ConnectByErrno | tcp/Connector.cpp:53-113 | for every errno by number: connecting in a new channel, closed and tried later, or closed for good; the assert on the old channel fails exactly if there is one |
| ConnectorSteps.AttemptIff | tcp/Connector.cpp:38-51 | start, restart and the timer make one socket exactly if a connection is wanted, and fail an assert exactly if not disconnected |
| ConnectorSteps.StopCancels | tcp/Connector.cpp:100-103 | stop gives up wanting and cancels the pending timer unless it comes too late |
| ConnectorSteps.WantsFollowsCalls | tcp/Connector.cpp:38-51 | over every run a connection is wanted from start or restart to stop; while it is not, no socket is made or handed over and no timer set |
| ConnectorSteps.ChannelEventIsLinear | tcp/Connector.cpp:127-173 | an event gives the socket of the registered channel to exactly one owner and fails no assert |
| ConnectorSteps.ChannelEventEffect | tcp/Connector.cpp:127-160 | exactly when an event does nothing, retries, hands the socket over or closes it, with the channel out of the poller and its destruction deferred |
| ConnectorSteps.RetryDelayNeverGrows | tcp/Connector.cpp:162-173 | the retry delay stays at 500 ms |
| ClientSteps.AlwaysHealthyIff | tcp/TcpClient.cpp:59-129 | over every run, with sends and shutdowns from any thread: no assert fails, at most one of connecting channel, retry timer and connection exists, and no destroyed connection is registered, iff no double close, no fresh retry timer and no late queued send occurs |
| ClientSteps.SettledAtPoll | tcp/TcpClient.cpp:114-129 | at each poll nothing is queued but other threads' sends, no channel lingers, the current connection is registered for reading and was reported up, and every former one is out of the poller and was reported up once and down once |
| ClientSteps.ReconnectsIff | tcp/TcpClient.cpp:114-129 | losing the connection starts exactly one new attempt iff the client retries and still wants to be connected, under way or scheduled unless errno says to give up |
| ClientSteps.WantsFollowsCalls | tcp/TcpClient.cpp:59-80 | over every unbroken run the client wants to be connected from connect to disconnect or stop |
| ClientSteps.StaysAway | tcp/TcpClient.cpp:125-128 | after disconnect or stop, until connect is called, no event on a connection makes a socket |
| ClientSteps.StoppedMakesNothing | tcp/TcpClient.cpp:77-80 | a stopped client makes no socket, no connection and no timer |
| ClientSteps.StopAndDisconnect | tcp/TcpClient.cpp:66-80 | stop reaches the connector and its timer; disconnect shuts down the current connection and no other |
| ClientSteps.EventEffect | event_loop/Channel.cpp:28-51 | the current connection is let go of, once, exactly if the event hangs up or reads the end of the stream; its interest follows replies left over and drains |
| ClientSteps.HandOverConnects | tcp/TcpClient.cpp:82-112 | an event on the connecting channel makes the next connection exactly if it brings no error and the socket is wanted and usable |
| ClientSteps.RunGoesOn | event_loop/EventLoop.cpp:187-200 | over every unbroken run functors run in queue order, and no connection goes back to an earlier state |
| ClientSteps.ShutdownRefusesSends | tcp/TcpConnection.cpp:57-65 | after shutdown, whatever comes, no send on that connection has any effect |
| ClientSteps.EventByFlags | event_loop/Channel.cpp:28-51 | a connection's event runs close, then read, then write |
| ClientSteps.StepKeepsInvIff | tcp/TcpClient.cpp:59-129 | every action keeps the invariant of the client or breaks its health, by a failed assert or a dead connection registered, and the latter iff it is a breaking event |
| ClientSteps.CloseKeepsInv | tcp/TcpClient.cpp:114-129 | losing the current connection, with or without a new attempt, keeps the invariant |
| ClientSteps.FailedOnceIsReached | tcp/Connector.cpp:152-173 | a run in which a first attempt fails leaves the old channel to a functor and a retry timer pending |
| ClientSteps.FreshTimerBreaks | tcp/Connector.cpp:105-113 | a run from the initial state in which that timer fires at once and the assert on the channel fails |
| ClientSteps.DoubleCloseBreaks | tcp/TcpConnection.cpp:168-177 | from any poll with a connection, an event that hangs up and reads to the end fails the assert that it is the current one |
| ClientSteps.FirstConnection | tcp/TcpClient.cpp:82-112 | after one iteration in which the attempt succeeds, the client polls with its first connection |
| ClientSteps.DoubleCloseFromStart | tcp/TcpClient.cpp:114-129 | a run from the initial state that ends with that failed assert |
| ClientSteps.LateSendBreaks | tcp/TcpConnection.cpp:67-94 | a send with bytes left over on a destroyed connection registers it again |
| ClientSteps.LateSendIsReached | tcp/TcpConnection.cpp:57-65 | from any poll with nothing queued, a hang-up and a send from another thread before the functors run lead there |
| ClientSteps.DeadConnectionFails | tcp/TcpConnection.cpp:168-177 | the next hang-up of such a connection fails the assert on its state |
| ClientSteps.LateSendFromStart | tcp/TcpClient.cpp:114-129 | a run from the initial state that ends with that failed assert |
| LiveConnections.Connection.ConnectEstablished | tcp/TcpConnection.cpp:111-117 | the real channel becomes known to the poller and the kernel, reading, and the callback reports the connection up |
| LiveConnections.Connection.ConnectDestroyed | tcp/TcpConnection.cpp:119-127 | the real channel is muted, leaves the poller and the kernel set, and the callback reports the connection down |
| Connectors.Connector.Connect | tcp/Connector.cpp:53-113 | for every errno by number: a new channel object in the poller and the kernel set, waiting to become writable, or a retry or a closed socket; false exactly when the assert on the old channel fails; no other channel is touched |
| Connectors.Connector.RemoveAndResetChannel | tcp/Connector.cpp:115-121 | the real channel leaves the poller and the kernel set at once and is destroyed later; no other channel is touched |
| Connectors.Connector.HandleEvent | tcp/Connector.cpp:127-160 | an event on the real connecting channel fails no assert, never destroys the channel it runs in, and leaves it out of the poller if its socket went anywhere |
| Clients.TcpClient.NewConnection | tcp/TcpClient.cpp:82-112 | the socket handed over becomes a new connection object whose channel the poller has for reading, unless the test poll fails |
| Clients.TcpClient.ConnectingEvent | tcp/Connector.cpp:139-146 | that happens inside the event of the connecting channel, which is then out of the poller, so no assert fails |
| Clients.TcpClient.SetMask | event_loop/Channel.cpp:24-26 | a connection's mask change reaches the real poller and the kernel set; false only for a channel the poller does not have, which is no open connection's |
| Clients.TcpClient.Disconnect | tcp/TcpClient.cpp:66-75 | the object stops wanting to be connected, and its current connection is no longer Connected |
| Clients.TcpClient.HandleClose | tcp/TcpClient.cpp:114-129 | the connection's real channel is muted and its teardown queued, then a new attempt begins if wanted; false exactly when an assert fails |
| Clients.TcpClient.DestroyConnection | tcp/TcpConnection.cpp:119-127 | a connection no longer current is destroyed and its channel leaves the poller, whose other channels stay |
| Clients.TcpClient.Perform | tcp/TcpClient.cpp:59-129 | from every state that keeps the invariant, any action on the real objects fails an assert or leaves a destroyed connection registered iff it is a breaking event |
| Clients.TcpClient.SettledWhilePolling | event_loop/EventLoop.cpp:92-101 | while the loop polls nothing is queued but other threads' sends, every former connection object was reported up and down once, and the poller has and epoll watches, with its own mask, only the connecting channel or the current connection's |
| Clients.TcpClient.Drive | tcp/TcpClient.cpp:59-129 | a real client driven through any run, sends included, fails no assert and registers no destroyed connection iff no breaking event occurs, and then is settled whenever it polls and wants to be connected iff the calls say so |
| ServerSteps.AlwaysHealthyIff | tcp/TcpServer.cpp:38-71 | no assert fails and no destroyed connection is registered iff no double close and no late queued send occurs |
| ServerSteps.StepKeepsInvIff | tcp/TcpServer.cpp:38-71 | every action keeps the invariant of the server or breaks its health, and the latter iff it is a breaking event |
| ServerSteps.AcceptEffect | tcp/TcpServer.cpp:38-57 | an accepted connection is in the map, registered and reading, with one registry call, and everything else is where it was |
| ServerSteps.AcceptKeepsInv | tcp/TcpServer.cpp:38-57 | accepting a connection keeps the invariant of the server |
| ServerSteps.CloseEffect | tcp/TcpConnection.cpp:168-177 | closing a connection in the map fails no assert, mutes it, takes it out of the map once and queues one teardown |
| ServerSteps.ConnEventKeepsInvIff | event_loop/Channel.cpp:28-51 | an event on a connection in the map keeps the invariant iff it does not hang up and read to the end at once |
| ServerSteps.EventEffect | event_loop/Channel.cpp:28-51 | a connection is erased, once, exactly if the event hangs up or reads the end of the stream; its interest follows replies left over and drains |
| ServerSteps.RunGoesOn | event_loop/EventLoop.cpp:187-200 | over every unbroken run functors run in queue order, and no connection goes back to an earlier state |
| ServerSteps.ShutdownRefusesSends | tcp/TcpConnection.cpp:57-65 | after shutdown, whatever comes, no send on that connection has any effect |
| ServerSteps.AssertsFailIff | tcp/TcpConnection.cpp:119-127 | the asserts of the poller, the connection and the map fail exactly when the source's conditions do not hold |
| ServerSteps.TeardownKeepsInv | tcp/TcpConnection.cpp:119-127 | the queued teardown finds its connection open, unregisters it and reports it down, once |
| ServerSteps.SettledAtPoll | tcp/TcpConnection.cpp:111-127 | at each poll every connection is in the map or was erased once, destroyed once and reported up and down once, and the registered descriptors are exactly those of the map |
| ServerSteps.PollersInterchangeable | event_loop/EventLoop.cpp:92-101 | the server's registry calls meet both pollers' asserts, epoll_ctl is never refused, and at each poll both pollers watch exactly the connections in the map |
| ServerSteps.EventByFlags | event_loop/Channel.cpp:28-51 | a connection's event runs close, then read, then write |
| ServerSteps.DoubleCloseBreaks | tcp/TcpConnection.cpp:168-177 | from any poll, an event that hangs up and reads to the end fails the erase-count assert |
| ServerSteps.LateSendBreaks | tcp/TcpConnection.cpp:57-65 | a queued send with bytes left over on a destroyed connection registers it again or fails a poller's assert |
| ServerSteps.LateSendIsReached | tcp/TcpConnection.cpp:57-65 | from any poll with nothing queued, a hang-up and a send from another thread before the functors run register the dead connection again |
| ServerSteps.DeadConnectionFails | tcp/TcpConnection.cpp:168-177 | the next hang-up of such a connection fails the assert on its state |
| ServerSteps.LateSendFromStart | tcp/TcpServer.cpp:59-71 | a run from the initial state that ends with that failed assert |
| ServerSteps.FirstConnection | tcp/TcpServer.cpp:38-57 | after one iteration that accepts, the loop polls with that connection connected and in the map |
| Servers.TcpServer.SetMask | event_loop/Channel.cpp:24-26 | a mask change reaches the real poller; its assert on a known channel never fails, and the one on a new channel fails iff its descriptor is registered |
| Servers.TcpServer.NewConnection | tcp/TcpServer.cpp:38-57 | a new connection object in the map whose channel the real poller has; all other objects are untouched |
| Servers.TcpServer.HandleClose | tcp/TcpConnection.cpp:168-177 | the real channel is muted down to the kernel set, the connection leaves the map and its teardown is queued; false exactly when an assert fails |
| Servers.TcpServer.ConnectDestroyed | tcp/TcpConnection.cpp:119-127 | the real channel leaves the poller and the kernel set, whose asserts hold; false exactly when the connection is not open |
| Servers.TcpServer.HandleEvent | event_loop/Channel.cpp:28-51 | the flag tests on real objects run the callbacks in the order of the dispatch over the returned bits, and stop at the first failed assert |
| Servers.TcpServer.Perform | event_loop/EventLoop.cpp:92-101 | one action on the real objects: they follow the step, and an assert fails exactly where the step says so |
| Servers.TcpServer.SettledWhilePolling | event_loop/EventLoop.cpp:92-101 | while the loop polls, the real poller has exactly the channels of the map, epoll watches them with their own masks, no epoll_ctl call was refused, and every connection object was reported up once and, if erased, down once |
| Servers.TcpServer.Serve | tcp/TcpServer.cpp:38-71 | a real server driven through any run without a breaking event fails no assert and is settled whenever it polls |

## Left out

- tcp/Acceptor.cpp, tcp/Socket.cpp, tcp/SocketsOps.cpp, tcp/InetAddress.cpp: system-call wrappers; an accepted connection is a descriptor that no living connection has.
- logger/, init.hpp, main.cpp: output and formatting.
- event_loop/EventLoopThread.cpp, event_loop/EventLoopThreadPool.cpp: thread start-up and a round-robin counter; the server has no pool threads, so every connection lives on the base loop.
- `Buffer::prepend` and `Buffer::shrink`: no core path uses them, and neither does what is meant unless the reader index is 8.
- `EventLoop::quit`, `looping_` and `TcpClient`'s destructor: shutdown of the loop itself.
- `Epoller::fill_active_channels` and the doubling of its event list: a plain copy of what the kernel returned.
- Floating-point delays, the difference between the monotonic and the system clock, time formatting: times are integer microseconds and each clock reading is a parameter.
- Timer additions and cancellations from other threads: they reach the queue as functors, in the order `TaskQueue.FirstInFirstOut` gives.
- C++ object lifetime beyond the deferred destruction of the connecting channel: captured views and raw `this` pointers.
- Connections.TcpConnection.SendInLoop: the callback that a full write queues is counted, not called.
- ConnectorSteps.SocketsAreLinear: `restart` is taken to be called only in state Connected, as `TcpClient` does; a socket handed over whose test poll fails is leaked by the client and counts as handed over.
- ClientSteps.AlwaysHealthyIff: `TcpClient::connect` is called once, on the loop thread; `disconnect`, `stop`, sends and shutdowns come at any time.
- Servers.TcpServer.HandleEvent: interest and life cycle only; the bytes are the subject of `ConnectionOutput`.
- Servers.TcpServer.NewConnection: connections are numbered where the source builds a name from the number; an object that nobody refers to any more stays in the model's map.
- Connectors.Connector.Connect: a new socket's descriptor is any that the poller does not have, since the sockets of registered channels are open.
- LiveConnections.Connection.ConnectEstablished: the life cycle of a connection object and its output (`Connections`) are two classes, each without the other's fields.
- Clients.TcpClient.Drive: like the server's objects, the client's run on an `Epoller` only; for `Poller` the interest map they share is the link (`PollersAgree`, `ServerSteps.PollersInterchangeable`).
- ClientSteps.StepKeepsInvIff: the functor of a write-complete callback is not queued, in the server neither; the bytes a send leaves over or a write drains are a choice of the environment.
- ConnectionOutput.AlwaysQuietIff: `send` and `shutdown` on another thread test or exchange the state and queue their functor in one step, and so in the server and the client.
- EventLoops.EventLoop.Iterate: the poll and event phase of an iteration is empty there, and a functor is a finite tree of those it queues, so one that queues itself for ever is not expressible (in `TaskQueue` it is).
