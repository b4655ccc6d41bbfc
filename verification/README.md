# ReviveNetwork: a verified model

ReviveNetwork is a reactor library: one event loop per thread, dispatch by poll, timers, buffered TCP
output, a bounded thread pool and an asynchronous logger. This project models its stateful core in
Dafny and proves what its parts keep over every run.

`dafny verify dfyconfig.toml` checks everything.

| file | models |
|---|---|
| Numbers.dfy, Sequences.dfy | two functions on numbers, two on sequences |
| Buffer.dfy | the growable byte queue: what each operation does to storage and indices (`Storage`), and the class that does it in place (`Buffers`) |
| TcpConnection.dfy | the output path of a connection and its close handlers, with re-entrant callbacks: effects and a log (`ConnectionSpec`), what every run keeps (`ConnectionRuns`), the class (`Connections`) |
| AppendAsWritten.dfy | exactly which runs of a connection keep their byte stream with `append` as the line is written (`AsWrittenRuns`) |
| EventLoop.dfy | handing functors to a loop across threads, as a step machine (`EventLoop`), and the loop thread's own methods (`EventLoops`) |
| Poller.dfy | the poll set and its bijection with the channels (`PollSet`), the class (`Pollers`) |
| TcpServer.dfy | the life of connections across loops (`Teardown`, built on `PollSet`), the dispatch of one report (`ChannelEvents`), the keys of the connection map (`ConnectionNames`) |
| TimerQueue.dfy | the ordered timer set and its timerfd: effects (`TimerSpec`), what every run keeps (`TimerRuns`), the class (`TimerQueues`) |
| ThreadPool.dfy | the monitor with two conditions, as a step machine |
| AsyncLogging.dfy | what becomes of every log line (`LogRounds`), and the class that passes four owned buffers around (`AsyncLoggers`) |
| LogStream.dfy | numerals and reading them back (`Numerals`), the in-place digit loops and the fixed buffers (`LogStreams`) |

System calls are parameters: a write fails or accepts up to some number of bytes, a read delivers some
bytes, poll answers any reports it may give, a signal wakes at least one sleeper if there is any, clocks
give any time. A callback is given by the calls it makes, so a run with re-entrant callbacks is a finite
tree and every theorem about runs ranges over all of them.

## Readings of the code

- **Where `append` copies.** RN/net/Buffer.h:79 copies to the reader position although the writer then
  advances. `Storage.CopyTo` covers both: `Reader` is the line as written, `Writer` what the rest of the
  class expects. The theorems hold for all inputs with `Writer`. As written, an append is right for
  every text of its length exactly when nothing is unread or nothing is appended
  (`AppendAsWrittenExact`), a scatter read exactly when it fits (`ReadAsWrittenExact`), a run of a
  connection for all contents of its messages exactly when no message is given while earlier bytes
  wait (`RunAsWrittenExact`); a run of two sends that loses bytes is given (`AsWrittenCorrupts`).
- **`assert(state_ = kConnected)`** (RN/net/TcpConnection.cpp:68) assigns, and is modelled so. After a
  close `shutdown()` is therefore accepted again. It can shut the write side on unwritten bytes: exactly
  when the connection ended with bytes waiting and no message was given since (`HalfCloseLossExact`, in
  every run), so right after a close exactly when the output buffer was not empty
  (`CloseThenShutdownExact`, `LossAfterCloseExact`); `HalfCloseAfterClose` is such a run. And it makes
  the assertion in `connectionDestroyed` fail: exactly when anybody has called `shutdown()` since the
  close (`DestroyAssertionExact`, with the run `DestroyAssertionFails`).
- **A disabled slot stays disabled.** `updateChannel` never restores a negated descriptor. This is
  modelled as written (`DisabledStays`); that a connection closes once rests on it.
- **Two closes from one report.** A report of POLLHUP without POLLIN together with POLLPRI or POLLRDHUP
  can run `handleClose` twice, and only such a report can (`ClosesOnceExact`). That the kernel makes no
  such report is the one assumption on reports in `Teardown` (`ChannelEvents.HangupAlone`); a channel
  still to be dispatched may be handled with any other report.
- **The eventfd drain** is bound as a write callback and never runs as written. It is an optional step, so
  the theorems cover both; without it the eventfd stays readable for good (`WithoutDrainStaysAwake`).
- **Functors queued by the loop thread before `loop()`** are not announced and wait through the first
  poll. `NoLostWakeup` says exactly when a blocked loop has waiting functors.
- **`tv_nsec`** receives microseconds (RN/net/TimerQueue.cpp:30-31). The timer wakes too early by an
  amount that `TimespecExact` gives, and is re-armed.
- **The read of the timerfd** asserts that 8 bytes come (RN/net/TimerQueue.cpp:52), and arming the timerfd
  takes back an expiry not yet read. The assertion holds because the timer channel is the first one the
  loop registers (RN/net/EventLoop.cpp:28-29), so that it keeps slot 0 and is dispatched before any
  handler that could arm it (`PollSet.FirstDispatchedFirst`); `TimerRuns` reads only a readable timerfd.
- **The logger's wait test** is always true, so every writer turn waits once, before it swaps.
- **Connection names** are cut to 31 characters; `NamesDifferExact` says when keys of the connection map
  are distinct, which `Teardown` takes for granted.

## Model

| member | source | states |
|---|---|---|
| Storage.EnsureSpaceKeeps | RN/net/Buffer.h:151-162 | making room keeps the readable bytes, yields the room, never shrinks storage, grows by the least and only when compacting would not do, and its assertion on the reader position holds |
| Storage.AppendedReadable | RN/net/Buffer.h:76-81 | with the copy at the writer, append adds its bytes after the readable ones |
| Storage.PrependedReadable | RN/net/Buffer.h:91-96 | prepend puts its bytes before the readable ones |
| Storage.ReceivedReadable | RN/net/Buffer.h:102-123 | a scatter read of any length adds just the received bytes, overflow included |
| Storage.AppendAsWrittenExact | RN/net/Buffer.h:76-81 | append as written is right for all texts of a length exactly when nothing is unread or the length is 0 |
| Storage.ReadAsWrittenExact | RN/net/Buffer.h:102-123 | scatter read as written is right for all texts of a length exactly when they fit, or the buffer is empty with no writable part |
| Storage.AsWrittenLosesBytes | RN/net/Buffer.h:76-81 | two appends in a row, as written, lose the first |
| Storage.RunRefines | RN/net/Buffer.h:45-123 | every sequence of operations refines a byte queue, and storage never shrinks |
| Storage.RunAsWrittenRefines | RN/net/Buffer.h:45-123 | as written, every sequence in which no bytes land on unread ones refines a byte queue |
| Buffers.Buffer.MakeSpace | RN/net/Buffer.h:151-162 | the in-place grow and compact paths have the specified effect |
| Buffers.Buffer.CopyDown | RN/net/Buffer.h:156 | a front-to-back copy to a lower, overlapping place is the block move intended |
| Buffers.Buffer.Append | RN/net/Buffer.h:76-81 | the in-place append has the specified effect for either destination |
| Buffers.Buffer.Prepend | RN/net/Buffer.h:91-96 | the in-place prepend has the specified effect |
| Buffers.Buffer.Retrieve | RN/net/Buffer.h:45-48 | within its assertion, exactly the oldest bytes leave the readable ones, the others stay in order, and storage is untouched |
| Buffers.Buffer.RetrieveAllAsString | RN/net/Buffer.h:61-65 | returns all readable bytes and leaves none |
| Buffers.Buffer.ReadFd | RN/net/Buffer.h:102-123 | the placement of a scatter read has the specified effect for every length |
| ConnectionRuns.StreamIntegrity | RN/net/TcpConnection.cpp:36-63 | in every run, callbacks re-entering send included: what the socket accepted plus what is buffered is what was given, in order, and at every moment the socket had a prefix; the channel asks for writing exactly while bytes are buffered that did not stall at an end, both between events and at every call that a callback makes; before the end nothing stalls, and half-close happens only with everything written; write-complete is called exactly after a write that leaves nothing waiting; and every event of the run took effect: handling it began with the notes told from the state before, so messages are given and written at once where nothing waits, and buffered bytes are written as far as the socket takes them |
| ConnectionRuns.SendExact | RN/net/TcpConnection.cpp:100-138 | a message is given; with nothing waiting the socket is tried at once, and when it takes all the callback follows; what it leaves is buffered behind what waits, and the channel writes |
| ConnectionRuns.WriteReadyExact | RN/net/TcpConnection.cpp:36-63 | write readiness writes the oldest bytes, as many as the socket takes, and keeps the others in order; with none left writing stops, the callback follows, then a half-close that waited; a failed write or an idle channel changes nothing |
| ConnectionRuns.CallsInOrder | RN/net/TcpConnection.cpp:46-49 | the calls of a callback are made one after the other, all of them and nothing else |
| ConnectionRuns.EventBegins | RN/net/TcpConnection.cpp:5-146 | the first effects of handling each event, told from the state before it |
| ConnectionRuns.StateIsTold | RN/net/TcpConnection.cpp:5-19 | in every run the channel asks for reading exactly from the establishment to the end, and the state is the one that establishments, closes, destructions and shutdown calls lead to |
| ConnectionRuns.HighWaterWarnings | RN/net/TcpConnection.cpp:127-132 | high-water callbacks tell the backlog, once per excursion over the mark, and none is missed |
| AsWrittenRuns.RunAsWrittenExact | RN/net/TcpConnection.cpp:100-138 | with append as written, a run keeps the stream for all contents of its messages, callbacks' messages included, exactly when no message is given while earlier bytes wait |
| AsWrittenRuns.SendAsWrittenExact | RN/net/TcpConnection.cpp:100-138 | with append as written, and after any run without a backlog, a send with any callback keeps the stream for all contents exactly when it brings no backlog about; with a callback that sends nothing, exactly when the buffer or the message is empty |
| AsWrittenRuns.AsWrittenCorrupts | RN/net/TcpConnection.cpp:100-138 | a run of two refused sends whose stream is corrupted as written |
| ConnectionRuns.ShutdownStopsAndFinishes | RN/net/TcpConnection.cpp:80-98 | with calls made in the loop thread, nothing is accepted after a shutdown before the end, and a shut-down connection with nothing left to write has had its write side shut |
| ConnectionRuns.HalfCloseLossExact | RN/net/TcpConnection.cpp:141-146 | in every run, a half-close shuts the write side on unwritten bytes exactly when the connection had ended with bytes waiting and no message was given since |
| ConnectionRuns.ShutdownLossExact | RN/net/TcpConnection.cpp:92-98 | at any point of a run, a shutdown loses bytes exactly when the connection is connected, has ended, is not writing and has bytes buffered |
| ConnectionRuns.CloseThenShutdownExact | RN/net/TcpConnection.cpp:65-72 | a shutdown right after a close loses bytes exactly when the buffer was not empty at the close |
| ConnectionRuns.LossAfterCloseExact | RN/net/TcpConnection.cpp:65-72 | whatever follows a close, as long as no message is given: bytes are lost exactly when a half-close is issued and the buffer was not empty at the close |
| ConnectionRuns.HalfCloseAfterClose | RN/net/TcpConnection.cpp:65-72 | a run in which the write side is shut on unwritten bytes after a close |
| ConnectionRuns.DestroyAssertionExact | RN/net/TcpConnection.cpp:13-19 | after a close, and whatever follows it, the assertion in connectionDestroyed holds exactly as long as nobody has called shutdown, whether or not the call took effect |
| ConnectionRuns.DestroyAssertionFails | RN/net/TcpConnection.cpp:13-19 | a run after which that assertion fails |
| ConnectionRuns.CallsIgnored | RN/net/TcpConnection.cpp:80-98 | calls on a connection that is not connected change nothing but the record of them |
| Connections.TcpConnection.SendInLoop | RN/net/TcpConnection.cpp:100-138 | the method has the specified effect, its callback re-entering it: first the message is given and tried on the socket |
| Connections.TcpConnection.HandleWrite | RN/net/TcpConnection.cpp:36-63 | the method has the specified effect, its callback re-entering send: first the oldest bytes are written; when some are left exactly those stay buffered and writing goes on |
| Connections.TcpConnection.RunCallback | RN/net/TcpConnection.cpp:46-49 | any calls made inside a callback have their specified effects in order |
| Connections.TcpConnection.Shutdown | RN/net/TcpConnection.cpp:92-98 | afterwards every send is refused and a second call has no effect; the write side is shut at once exactly when the connection was connected and nothing was being written |
| Connections.TcpConnection.HandleClose | RN/net/TcpConnection.cpp:65-72 | afterwards the unwritten bytes are still buffered, write readiness has no effect, and a shutdown would shut the write side at once |
| Connections.TcpConnection.ConnectionEstablished | RN/net/TcpConnection.cpp:5-11 | connects and reads, then runs the callback, and still reads after it |
| Connections.TcpConnection.ConnectionDestroyed | RN/net/TcpConnection.cpp:13-19 | disconnects and silences the channel; none of the calls its callback makes changes the state or the buffer |
| EventLoop.NoLostWakeup | RN/net/EventLoop.cpp:47-62 | in every interleaving, a loop blocked in poll with a silent eventfd and no thread about to wake it has no quit request, and has functors waiting exactly when the loop thread queued one outside loop() since the last swap; said of the state and of the actions themselves |
| EventLoop.RunIsTold | RN/net/EventLoop.cpp:47-135 | after every interleaving the state is what the actions say: the functors queued, swapped out and run, quit requests since loop() was entered, who owes a wakeup, the signals since the last drain, and where the loop thread is, which leaves just when asked to quit |
| EventLoop.NeverBlocksOnWork | RN/net/EventLoop.cpp:113-121 | when the loop thread queues only inside loop(), waiting functors always have a wakeup due |
| EventLoop.EarlyPushIsNotAnnounced | RN/net/EventLoop.cpp:113-121 | a functor queued before loop() waits unannounced through the first poll |
| EventLoop.FifoExactlyOnce | RN/net/EventLoop.cpp:113-135 | all functors that the actions queue, from whatever thread, run exactly once, in the order queued |
| EventLoop.RoundIsFixed | RN/net/EventLoop.cpp:123-135 | a round runs just the batch it swapped out, however much is queued meanwhile |
| EventLoop.RoundCompletes | RN/net/EventLoop.cpp:123-135 | at the end of a round exactly the functors that the actions before its swap queued have run |
| EventLoop.WithoutDrainStaysAwake | RN/net/IOWakeupTrigger.cpp:22-50 | without the drain a signalled eventfd is never silent again |
| EventLoops.LoopThread.QueueInLoop | RN/net/EventLoop.cpp:113-121 | the method is a push, followed by a wakeup when functors are being called |
| EventLoops.LoopThread.DoPendingFunctors | RN/net/EventLoop.cpp:123-135 | runs all that was pending, once and in order; what those queue stays pending with the eventfd signalled |
| PollSet.BijectionKept | RN/net/Poller.cpp:33-104 | every planned sequence of updates and removals keeps slots and channels in bijection, meets all assertions, and leaves exactly the live channels with the events last asked for |
| PollSet.UpdateKeeps | RN/net/Poller.cpp:33-60 | an update touches no other slot; a channel is disabled by an update to no events and not enabled by any |
| PollSet.RemoveKeeps | RN/net/Poller.cpp:78-104 | a removal drops one channel and keeps the slot contents of all others |
| PollSet.DisabledStays | RN/net/Poller.cpp:51-58 | a disabled channel stays disabled until removed, re-enabling included |
| PollSet.ActiveExact | RN/net/Poller.cpp:19-31 | after a poll, the slots with events are exactly the enabled registered channels reported, each once, in array order, with what was reported |
| PollSet.FirstDispatchedFirst | RN/net/TimerQueue.cpp:57-66 | the channel registered first keeps slot 0 through every run that does not remove it, and is dispatched first whenever it is reported |
| PollSet.ScanStops | RN/net/Poller.cpp:62-65 | stopping early loses no slot that a full scan would put among the first |
| Pollers.Poller.UpdateChannel | RN/net/Poller.cpp:33-60 | the method has the specified effect and its assertions hold for channels new or registered |
| Pollers.Poller.RemoveChannel | RN/net/Poller.cpp:78-104 | the method has the specified effect: the re-index after the swap hits an existing other channel |
| Pollers.Poller.FillActiveChannels | RN/net/Poller.cpp:62-76 | the scan returns the channels of the first slots with events, as many as asked, sets just their revents, and its lookup always succeeds |
| Teardown.DispatchSafe | RN/net/EventLoop.cpp:53-61 | in every run of all loops, each channel still to be dispatched belongs to an open connection of that loop and is registered with its poller |
| Teardown.LifeInOrder | RN/net/TcpServer.h:94-128 | with no report telling a hang-up without input together with urgent data or peer shutdown, every connection lives through up, closed, down in that order and at most once each, is in the server's map exactly before its removal, and so never once down; and every step of the run had its effect (see StepExact) |
| Teardown.StepExact | RN/net/TcpServer.h:94-128 | what each step does from any reachable state: an accepted connection comes up on loop 0 or has that queued on its own; a report that ends a connection closes it and queues its removal, another changes nothing; each functor carries its connection one stage on and queues what comes next; a swap takes all that is pending |
| Teardown.EveryFunctorOnce | RN/net/TcpServer.h:94-128 | each step of a connection's teardown that is due is queued exactly once, on the loop it belongs to, and nothing else is |
| Teardown.EstablishKeeps | RN/net/TcpConnection.cpp:5-11 | establishing registers a descriptor its poller does not have yet |
| Teardown.CloseKeeps | RN/net/TcpConnection.cpp:65-72 | closing an open connection finds its channel with its poller, silences it and leaves its removal owed to loop 0 |
| Teardown.RemoveNowKeeps | RN/net/TcpServer.h:120-128 | removal takes the connection from the map and leaves its destruction owed to its loop |
| Teardown.DestroyKeeps | RN/net/TcpConnection.cpp:13-19 | destruction finds its channel registered, and takes it out of the poll set |
| Teardown.ReportsOpen | RN/net/Poller.cpp:19-31 | after a poll just the connections of the loop with something reported are dispatched, each once, and they are all open |
| ChannelEvents.HandleEventExact | RN/net/Channel.cpp:31-50 | a report runs just the callbacks it triggers, each once, in the order error, close, read, write |
| ChannelEvents.ClosesOnceExact | RN/net/Channel.cpp:31-50 | one report closes a connection at most once, whatever the read finds, exactly when it does not tell a hang-up without input together with urgent data or peer shutdown |
| ConnectionNames.NamesDifferExact | RN/net/TcpServer.h:87-92 | the first k connections have different map keys exactly when the name of the k-th fits 31 characters |
| TimerSpec.TimespecExact | RN/net/TimerQueue.cpp:19-33 | the programmed time is valid and never zero; a wait of 100 microseconds or more comes out short by a stated amount, exact only for whole seconds, and any shorter one as 100 nanoseconds |
| TimerSpec.MicrosExact | RN/net/Timer.cpp:7-14 | an interval in microseconds is the one in seconds, cut towards zero |
| TimerRuns.NoTimerForgotten | RN/net/TimerQueue.cpp:72-158 | in every run, exactly the timers asked for, by steps and callbacks, exist with the intervals asked for; the set holds just those with a callback to come, under the times they are due; and while there are any the timerfd counts down to or reports the smallest |
| TimerRuns.FiringsSound | RN/net/TimerQueue.cpp:118-149 | each callback ran not before it was due, at first when asked and then one interval as asked after the time of the one before; one-shot timers run at most once, and firings of a repeating timer are at least its interval apart |
| TimerRuns.AddTimerExact | RN/net/TimerQueue.cpp:93-116 | adding a timer stores its time, interval and address as asked, puts just its entry into the set, and arms exactly when it is earlier than all others |
| TimerRuns.ReadExact | RN/net/TimerQueue.cpp:118-158 | one read, timer by timer: the callbacks run, which timers are restarted and put back, and those that the callbacks asked for |
| TimerRuns.SentinelSplits | RN/net/TimerQueue.cpp:131-141 | the sentinel separates exactly the entries due by now |
| TimerRuns.InsertKeepsSorted | RN/net/TimerQueue.cpp:72-83 | inserting a new entry keeps the set ordered and adds only it |
| TimerRuns.ReadFiresExactlyTheDue | RN/net/TimerQueue.cpp:118-141 | one read runs exactly the callbacks due, in order of their times, whatever those add |
| TimerRuns.ReadReschedules | RN/net/Timer.cpp:7-14 | one read puts every expired repeating timer back one interval, in whole microseconds, after its now, and no other expired one |
| TimerRuns.ReinsertIsNew | RN/net/TimerQueue.cpp:79-80 | re-inserting an expired timer never collides |
| TimerQueues.TimerQueue.Insert | RN/net/TimerQueue.cpp:72-83 | the method has the specified effect and tells whether the earliest time changed |
| TimerQueues.TimerQueue.AddTimerInLoop | RN/net/TimerQueue.cpp:109-116 | the method has the specified effect, re-arming exactly for a new earliest timer; the timer keeps the interval asked for |
| TimerQueues.TimerQueue.GetExpired | RN/net/TimerQueue.cpp:131-141 | returns the expired entries in order and keeps the others; its assertion holds |
| TimerQueues.TimerQueue.HandleRead | RN/net/TimerQueue.cpp:118-129 | the method has the specified effect, its callbacks adding timers, and keeps the invariant |
| TimerQueues.TimerQueue.Reset | RN/net/TimerQueue.cpp:143-158 | re-inserts the repeating timers, each new to the set, and arms for the first |
| ThreadPool.WakeupsAdequate | RN/base/ThreadPool.cpp:60-92 | in every interleaving, sleeping workers are never outnumbered by tasks no woken worker answers for, nor waiting posters by slots no roused one will fill; none sleeps once stopped; the queue keeps its bound |
| ThreadPool.RunIsTold | RN/base/ThreadPool.cpp:47-92 | after every interleaving the state is what the actions say: which of the tasks that threads brought were accepted and handed out, whether the pool is stopped, and where every worker and poster is, with which task |
| ThreadPool.TasksExactlyOnce | RN/base/ThreadPool.cpp:60-92 | the tasks that threads brought and the pool accepted are taken in that order, each once; a waiting thread still holds its own; and each taken task has returned or is run by exactly one worker |
| ThreadPool.NoneExitsEarly | RN/base/ThreadPool.cpp:104-120 | a worker leaves only after stop |
| ThreadPool.StoppedWorkersExit | RN/base/ThreadPool.cpp:47-59 | after stop no worker can be held up and each has at most three steps left, whatever the others do |
| LogRounds.NothingElseLost | RN/base/AsyncLogging.cpp:47-122 | in every interleaving, batches, full buffers and the current one hold all lines that fit, in order and once, the batches all those before the last writer turn; the file holds those batches less the buffers from the third on of each batch over 25; the notices count the buffers left out |
| LogRounds.AppendExact | RN/base/AsyncLogging.cpp:47-62 | an append adds exactly its line exactly when the line is shorter than a buffer; the current buffer is retired exactly when the line leaves no room in it |
| LogRounds.EveryLineExact | RN/base/AsyncLogging.cpp:92-99 | in every interleaving, file and buffers hold every line that fits exactly when each batch over 25 has only empty buffers from the third on |
| LogRounds.SmallBatchesKeepAll | RN/base/AsyncLogging.cpp:92-99 | in every interleaving of lines shorter than a buffer, every line is kept exactly when no batch exceeds 25 buffers |
| AsyncLoggers.AsyncLogging.Append | RN/base/AsyncLogging.cpp:47-62 | the method has the specified effect, loses no buffer, and makes one only when there is no spare |
| AsyncLoggers.AsyncLogging.WriterTurn | RN/base/AsyncLogging.cpp:75-122 | one writer turn has the specified effect; its assertions hold, no buffer ever has two owners, and both spares are there and empty again |
| Numerals.IntegerRoundTrip | RN/base/LogStream.cpp:24-41 | the text of every integer reads back as it, and every numeral without superfluous zeros is the text of what it reads as |
| Numerals.NumeralReads | RN/base/LogStream.cpp:43-56 | decimal and hexadecimal numerals of every natural number have no superfluous zeros and read back as it |
| Numerals.NumeralOfRead | RN/base/LogStream.cpp:43-56 | every digit string without superfluous zeros, decimal or hexadecimal, is the numeral of what it reads as |
| Numerals.NumeralLength | RN/base/LogStream.cpp:24-56 | a numeral has at most k digits exactly when the number is below the k-th power of the base |
| Numerals.FitsInt64 | RN/base/LogStream.cpp:96-103 | every 64-bit integer takes at most 20 characters, a pointer 16 digits, within the 32 checked for |
| Numerals.DigitStep | RN/base/LogStream.cpp:17-33 | division towards zero and the mirrored digit table give the right digit for either sign |
| LogStreams.FixedBuffer.Convert | RN/base/LogStream.cpp:24-41 | the in-place loops leave the text of the value and a terminator, and nothing before it is touched |
| LogStreams.FixedBuffer.ConvertHex | RN/base/LogStream.cpp:43-56 | the same for hexadecimal |
| LogStreams.FixedBuffer.ReverseRange | RN/base/LogStream.cpp:39 | the in-place reversal turns just its range round |
| LogStreams.FixedBuffer.Append | RN/base/LogStream.h:72-77 | a text is taken whole or, when no room would remain, not at all |
| LogStreams.LogStream.FormatInteger | RN/base/LogStream.cpp:96-103 | any 64-bit integer is appended whole, or not at all with fewer than 32 characters left |
| LogStreams.LogStream.FormatPointer | RN/base/LogStream.cpp:146-156 | a pointer is appended as 0x and its digits, or not at all |

## Left out

- The system calls, `Socket`, `SocketsOps`, `Acceptor`, `InetAddress`, `Thread`, file and process helpers: parameters of the model, or thin wrappers.
- `EventLoop::cancle`, `TimerQueue::remove` and `Connector`: empty or unfinished in the source.
- `BlockingQueue`, `BoundedBlockingQueue`, `CountDownLatch`: the pool has the harder form of the same argument.
- `LogFile` rolling, log line formatting, floating-point output, `Fmt`, `StringPiece`: library or clock behaviour.
- The input buffer of a connection and its message callback's use of it: the buffer's own theorems cover it.
- `EventLoop::loop`, `ThreadPool` and `TcpServer` as classes: their methods interleave with other threads, so they are step machines; `EventLoops` gives the loop thread's methods as they run undisturbed.
- Timer objects and log buffers as heap objects: a timer is an element of a table by creation number, a log buffer a numbered value with one owner, as its `unique_ptr` has; aliasing through raw pointers is not captured.
- An unset write-complete, message or high-water callback: callbacks are taken to be set; one that does nothing is covered.
- Sends queued from other threads that outlive their connection: the functor holds a raw pointer to it.
- The order between sends queued from other threads and calls made in the loop thread: the code gives none.
- Tasks left in the pool, posters left waiting, and lines left in the logger at stop: the code does not promise to drain them.
- `quit()` before `loop()`: the loop resets the flag.
- Changing the maximum queue size while the pool runs.
- Rounding of `double` intervals: intervals are real numbers.
- Wrap-around of the connection number.
- ThreadPool.StoppedWorkersExit: counts steps and shows that one is always possible; that a task returns is not modelled.
