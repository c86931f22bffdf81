# Gd_rpc: models and proofs of its stateful core

Gd_rpc is a C++ RPC framework on a reactor: one event loop per thread, timers in a
hashed timing wheel, TCP connections with an output buffer, a double-buffered
asynchronous logger, and a client cluster balanced by smooth weighted round robin.
This project models these five components and proves what they are for. Each comes
in two layers. A *specification* on plain values says what happens, without slots,
rotations, event masks, buffer indices or pointers, and carries the theorems, which
hold for all runs and say what a run amounts to in terms of its inputs alone. A *class* with the fields and branches of the C++ class changes
its state in place, and its methods are proved to do exactly one step of the
specification.

| file | what it holds |
|---|---|
| `agenda.dfy`, `timeline.dfy`, `firings.dfy`, `requests.dfy`, `timing_wheel.dfy` | what a timer queue means; whole runs of it; calls and their order; what callbacks ask for; the wheel |
| `smooth.dfy`, `round_robin.dfy` | smooth weighted round robin on numbers; the balancer |
| `log_flow.dfy`, `log_file.dfy`, `async_logging.dfy` | where log lines are; rolled files; the logger and its consumer thread |
| `tcp_stream.dfy`, `tcp_accounts.dfy`, `byte_buffer.dfy`, `channels.dfy`, `tcp_connection.dfy` | a connection seen from outside; the same told by its events; its byte buffer; its channel; the connection |
| `loop_flow.dfy`, `event_loop.dfy` | functors, eventfd and phases; the loop |
| `poller_flow.dfy`, `poller.dfy` | poller map, channel states and kernel set as tables; the poller |
| `watching.dfy` | a connection and the poller together |

Results in short, and where the code does less than one might expect:

- The wheel makes every run of every task exactly once, exactly on tick
  `ticks completed when added + (k + 1) * timeout`, for every wheel length. The run calls
  the task's callback **if and only if** the task was not deleted before. Runs of one
  tick come first-in first-out, by the place each was added or put in again at. A tick
  comes back **if and only if** no entry due in it is endless (a zero timeout repeated
  for ever, itself or through its callback). Two polls equal one **if and only if** the
  first poll time lies between the other two. Every request is heard, from outside or
  from a running callback however deep: it becomes exactly the tasks and immediate calls
  it asks for, and there are no others.
- For a positive total, one cycle of the balancer is exact **if and only if** no weight
  is negative; then every window of that length is exact.
- Every line the logger accepted is in the file or on its way there, in lock order, **if
  and only if** no cut of a batch of more than 25 buffers meets a line beyond its second
  buffer; what is missing are exactly those lines (`LogFlow.OverloadLoses` shows runs
  that lose lines). The consumer's assertions never fail.
- Bytes written and waiting are all the bytes sent, in order, **if and only if** no
  direct write met a dead peer (EPIPE or ECONNRESET); what is missing otherwise are
  whole strings, those whose direct write did.
- Data and FIN are in order **if and only if** no call of another thread has run too late:
  a send after the FIN, a shutdown after the FIN or after a close that gave up output.
  Callers on the loop's thread are always safe. For others the code does not prevent it:
  `TcpStream.PostedSendAfterFin` shows a send that is accepted after the FIN and lost,
  and `TcpStream.FinTwice` two FINs.
- Up and then Down are called once each, with nothing written after Down, **if and only
  if** no event reported earlier closes or writes on a connection that is already down.
  An owner that destroys connections between their events is safe;
  `TcpStream.DestroyedUnderHangUp` shows the other case.
- With such an owner, and whatever other channels do, the kernel watches a connection's
  descriptor **if and only if** the connection is up: always for input, and for output
  exactly while output waits (`Watching.WatchedExactly`).
- What the loop has run, and what waits, is exactly what a plain account of pushes and
  batches says, for any rounds and interleavings.
- When the loop polls with functors waiting, it is or will be woken up **if and only if**
  a round is over or another thread has queued something. So the one poll that may sleep
  on waiting work is the first, when only the loop's own thread has queued anything
  (`LoopFlow.EarlyFunctorIsNotAnnounced`).
- Poller and kernel stay in agreement under an update **if and only if** the channel is
  the poller's own or new on a free descriptor. Withdrawing all interest twice puts the
  descriptor back into the epoll set (`PollerFlow.WithdrawnInterest`).

Two sources do not compile or are unfinished, and are read as they are clearly meant.
`RoundRobin` indexes a `std::list` and uses a `currentWeight_` that `Client` does not
declare: the elements are a sequence and `currentWeight` is a field that starts at 0.
`TimeWheel::addTask` leaves `times_` uninitialised: a request carries `times` as an
arbitrary number, so the proofs cover whatever is in that field; 1 means once.

A callback of the wheel or a functor of the loop is modelled by what it leaves behind
and what it adds. Clocks, sockets, the network and the scheduling of threads are
parameters: everything is proved for all of their values.

## Model

| member | source | states |
|---|---|---|
| Agendas.TickHalts | gdrpc/util/timingWheel.cpp:40-65 | the walk over the current slot ends if and only if no entry due now is endless, although running callbacks and re-armed tasks extend the list |
| Agendas.Drain | gdrpc/util/timingWheel.cpp:41-62 | a tick leaves nothing due, and does not move the clock while it runs |
| Agendas.StepsDrain | gdrpc/util/timingWheel.cpp:41-62 | a tick takes at most as many firings as the cost measure of what is due |
| Agendas.FireCosts | gdrpc/util/timingWheel.cpp:47-61 | every firing lowers the measure, whatever its callback adds and however often it repeats |
| Agendas.FireTame | gdrpc/util/timingWheel.cpp:47-61 | a firing neither creates nor removes an endless task among those due |
| Firings.RunTimeline | gdrpc/util/timingWheel.cpp:15-65 | over every run of additions, deletions and ticks: run k of a task is made, on its tick and with a call of the task's callback unless the task was deleted before, if and only if the task is to run more than k times and that tick is over; never twice |
| Firings.RunOrder | gdrpc/util/timingWheel.cpp:24-61 | one run comes before another if and only if its tick is earlier, or they share a tick and it was put in first: a first run when its task was added, a later one right behind its previous run and what that run's callback did |
| Firings.EarlierOneWay | gdrpc/util/timingWheel.cpp:24-61 | that order never holds both ways, so it leaves no tie open |
| Firings.FireKept | gdrpc/util/timingWheel.cpp:47-61 | a firing keeps what each entry will call, and the order in which entries were put in |
| Firings.RunMutes | gdrpc/util/timingWheel.cpp:35-38 | a task counts as deleted from record i on exactly when a deletion of it came before record i |
| Timeline.CancelledIsSilent | gdrpc/util/timingWheel.cpp:35-38 | a deleted task never calls again, whatever follows |
| Timeline.PollTwice | gdrpc/util/timingWheel.cpp:67-72 | polling twice equals polling once at the later time if and only if the first time lies between the other two |
| Timeline.TicksAdd | gdrpc/util/timingWheel.cpp:67-72 | ticks compose, and the number of ticks is the time passed |
| Firings.PollWindow | gdrpc/util/timingWheel.cpp:15-26 | a task added after a poll at p with timeout t has called its callback by a poll at q if and only if q >= p + t + 1 |
| Requests.AddComes | gdrpc/util/timingWheel.cpp:15-26 | a request comes to exactly the calls made at once and the tasks put in that it asks for, in its order, callbacks of negative timeouts included |
| Requests.RunAnswered | gdrpc/util/timingWheel.cpp:47-49 | over every run, right behind each call stand the calls and tasks its callback asked for; and beside them there are as many as the additions from outside come to |
| Requests.RequestHonoured | gdrpc/util/timingWheel.cpp:15-26 | an addition from outside does all that is asked, whatever follows |
| Requests.TimerOfCallback | gdrpc/util/timingWheel.cpp:40-65 | a timer a running callback sets has its first run, with a call unless deleted, if and only if the tick of that call plus its timeout is over |
| Timeline.GentleCanRun | gdrpc/util/timingWheel.cpp:40-65 | if no request is endless anywhere inside, every tick of every run comes back |
| TimingWheel.RoundsSame | gdrpc/util/timingWheel.cpp:43-46 | in the current slot, no rotations left means due now, and passing an entry takes one rotation off |
| TimingWheel.RoundsOther | gdrpc/util/timingWheel.cpp:64 | in the other slots a tick changes no rotation count |
| TimingWheel.RoundsIsQuotient | gdrpc/util/timingWheel.cpp:22 | the rotations a task starts with are the turns left until it is due |
| TimingWheel.SlotOfSum | gdrpc/util/timingWheel.cpp:21 | the slot computed from the current slot is that of the due tick |
| TimingWheel.FireLate | gdrpc/util/timingWheel.cpp:47-61 | erasing a fired entry after its callback and its re-arming comes to the same as taking it out first |
| TimingWheel.TimeWheel.constructor | gdrpc/util/timingWheel.cpp:9-13 | a new wheel stands for the empty agenda |
| TimingWheel.TimeWheel.AddTask | gdrpc/util/timingWheel.cpp:15-26 | does exactly what adding to the agenda does, for every wheel length; a negative timeout calls at once and returns no handle |
| TimingWheel.TimeWheel.DelTask | gdrpc/util/timingWheel.cpp:35-38 | deletes exactly the entry of that task, also in the middle of a tick; an expired handle changes nothing |
| TimingWheel.TimeWheel.AtFirstDue | gdrpc/util/timingWheel.cpp:41-48 | the task at the iterator with no rotations left is the first due entry of the whole agenda |
| TimingWheel.TimeWheel.ClockMovesOn | gdrpc/util/timingWheel.cpp:43-46 | the invariant of the walk: entries passed show the next tick's rotations, the others this tick's |
| TimingWheel.TimeWheel.Skip | gdrpc/util/timingWheel.cpp:43-46 | passing a task keeps the wheel in step with the agenda |
| TimingWheel.TimeWheel.Fire | gdrpc/util/timingWheel.cpp:48-61 | the firing branch is one firing of the agenda, callbacks and re-arming included |
| TimingWheel.TimeWheel.Tick | gdrpc/util/timingWheel.cpp:40-65 | a tick of the wheel is a tick of the agenda, and the callbacks run are those of its trace |
| TimingWheel.TimeWheel.TakeAllTimeout | gdrpc/util/timingWheel.cpp:67-72 | a poll of the wheel is a poll of the agenda; a clock set back gives no tick |
| Smooth.SumIsZero | gdrpc/rpc/clusterCli.hpp:92-101 | current weights add up to 0 after every pick, for any weights |
| Smooth.AboveMinusTotal | gdrpc/rpc/clusterCli.hpp:92-101 | every current weight stays above minus the total |
| Smooth.Ledger | gdrpc/rpc/clusterCli.hpp:92-101 | current weight = picks made * weight - total * own picks |
| Smooth.CyclesExact | gdrpc/rpc/clusterCli.hpp:87-103 | after k cycles server i has been picked k * weight times and all current weights are 0 |
| Smooth.CycleExactIff | gdrpc/rpc/clusterCli.hpp:87-103 | for a positive total, one cycle is exact if and only if no weight is negative |
| Smooth.Periodic | gdrpc/rpc/clusterCli.hpp:87-103 | the state repeats with the total as period |
| Smooth.WindowExact | gdrpc/rpc/clusterCli.hpp:87-103 | every window of that many picks, from any offset, holds server i exactly weight times |
| Smooth.NoStarvation | gdrpc/rpc/clusterCli.hpp:87-103 | a server of positive weight is picked in every window |
| Smooth.Bounds | gdrpc/rpc/clusterCli.hpp:92-101 | fixed bounds on current weights for all time, and on how far picks stray from the share |
| Smooth.BestUnique | gdrpc/rpc/clusterCli.hpp:94-100 | the choice is determined: the first of the heaviest |
| Smooth.ChoiceIsFirst | gdrpc/rpc/clusterCli.hpp:94-100 | nobody has more after gaining than the one picked, and nobody before it as much |
| Smooth.SmoothExample | gdrpc/rpc/clusterCli.hpp:87-103 | weights 5, 1, 1 are picked a a b a c a a, and the state is back |
| RoundRobins.OnlyOne | gdrpc/rpc/clusterCli.hpp:90 | the shortcut for one server is a step like any other |
| RoundRobins.RoundRobin.Add | gdrpc/rpc/clusterCli.hpp:82-85 | a server is appended |
| RoundRobins.RoundRobin.GainAll | gdrpc/rpc/clusterCli.hpp:92-100 | the loop raises every weight, sums the total and ends at the first of the heaviest |
| RoundRobins.RoundRobin.Next | gdrpc/rpc/clusterCli.hpp:87-103 | one step of smooth weighted round robin and its choice; null when there is nobody |
| LogFlow.RunAccounted | gdrpc/util/async_log.cpp:25-105 | over every interleaving each accepted line is in transit, in lock order and unaltered, or dropped, never both and never twice |
| LogFlow.RunAccepts | gdrpc/util/async_log.cpp:25-40 | over every run, exactly the lines shorter than a buffer are accepted, in lock order |
| LogFlow.RunFlushes | gdrpc/util/async_log.cpp:41-105 | when a batch is finished, every line accepted before its swap is in the file or dropped, and exactly those accepted since wait |
| LogFlow.RunNotices | gdrpc/util/async_log.cpp:71-80 | a notice is written for every batch of more than 25 buffers and for no other |
| LogFlow.OverloadIsVolume | gdrpc/util/async_log.cpp:30-38 | if all lines fit into a buffer, a batch that is cut holds at least 13 buffers' worth of characters |
| LogFlow.LosslessIff | gdrpc/util/async_log.cpp:25-105 | over every interleaving, all accepted lines are in file, batch, queue or current buffer, in lock order, if and only if no cut meets a line beyond the second buffer; what is missing are exactly those lines |
| LogFlow.RunLosses | gdrpc/util/async_log.cpp:71-80 | what a run drops is what its cuts find beyond the second buffer, one after another |
| LogFlow.OverloadLoses | gdrpc/util/async_log.cpp:71-80 | runs in which all lines of a batch but the first two are lost |
| LogFlow.LogConserved | gdrpc/util/async_log.cpp:25-105 | without an oversized batch, nothing is missing and the file holds a prefix of the accepted lines and nothing else |
| LogFlow.LogUnderOverload | gdrpc/util/async_log.cpp:71-85 | with oversized batches the file still holds whole lines in order, and notices |
| LogFlow.StepAccounted | gdrpc/util/async_log.cpp:25-105 | each single step of a producer or the consumer keeps the account |
| LogFlow.CutMoves | gdrpc/util/async_log.cpp:71-80 | a cut moves the excess, and nothing else, out of the transit |
| LogFlow.WriteNextMoves | gdrpc/util/async_log.cpp:82-85 | writing a buffer moves its lines to the file without disturbing the order |
| LogFlow.AppendAllAccounted | gdrpc/util/async_log.cpp:25-40 | lines shorter than a buffer are accepted, all others are not |
| LogFiles.LogFile.constructor | gdrpc/util/async_log.cpp:109-126 | the first file is open and empty |
| LogFiles.LogFile.Append | gdrpc/util/async_log.cpp:128-146 | the files together grow by exactly the text; rolled if and only if the size is exceeded in a new second; names increase and closed files exceed the roll size |
| LogFiles.LogFile.RollFile | gdrpc/util/async_log.cpp:148-161 | a new file only with a later second; the text is kept |
| AsyncLoggings.Buffer.Append | gdrpc/util/async_log.hpp:54-59 | a text is stored whole or not at all |
| AsyncLoggings.Buffer.Reset | gdrpc/util/async_log.hpp:51 | a reset buffer is empty |
| AsyncLoggings.OutTextAppend | gdrpc/util/async_log.cpp:82-85 | the text of the file is the concatenation of the items written |
| AsyncLoggings.AsyncLogging.constructor | gdrpc/util/async_log.cpp:12-23 | the logger starts with two empty buffers and nothing accepted |
| AsyncLoggings.AsyncLogging.Append | gdrpc/util/async_log.cpp:25-40 | one Append step; the current buffer is never null, the next one null or empty, and null only while something is queued |
| AsyncLoggings.AsyncLogging.Swap | gdrpc/util/async_log.cpp:55-67 | one Swap step; the consumer keeps a spare or gets at least two buffers |
| AsyncLoggings.AsyncLogging.Cut | gdrpc/util/async_log.cpp:71-80 | one Cut step; enough buffers stay to recover both spares |
| AsyncLoggings.AsyncLogging.WriteNext | gdrpc/util/async_log.cpp:82-85 | one WriteNext step; the file gets the text of the buffer's lines |
| AsyncLoggings.AsyncLogging.Recycle | gdrpc/util/async_log.cpp:89-103 | one Recycle step; both spares are back and empty, and the assertions hold |
| AsyncLoggings.AsyncLogging.InterfereWith | gdrpc/util/async_log.cpp:25-40 | producers do not disturb the buffers the consumer has in hand |
| AsyncLoggings.AsyncLogging.Round | gdrpc/util/async_log.cpp:50-105 | one round is exactly its swap, cut, writes and recycling with what producers do in between; all that came in before the swap is in the file or dropped at its end |
| AsyncLoggings.AsyncLogging.ThreadFunc | gdrpc/util/async_log.cpp:41-107 | for any number of rounds and any interleaving the loop's assertions hold, what happens is exactly these rounds, and the file holds the text of what was written |
| AsyncLoggings.RoundsFlushed | gdrpc/util/async_log.cpp:41-107 | after any rounds, the accepted lines are all that came in and fit, and those that came in before the last swap are in the file or dropped |
| TcpStream.RunFaithful | gdrpc/net/tcpConnection.cpp:116-164 | for any partial writes and refusals, in any run: written and waiting bytes are all that was sent, in order, without the strings whose direct write met EPIPE or ECONNRESET; nothing is missing if and only if there was no such write |
| TcpStream.RunAccepts | gdrpc/net/tcpConnection.cpp:95-126 | in any run, what is accepted are the strings sent on a connection that is up, and those run from the loop's queue on one that is not down, one after another |
| TcpAccounts.StepDispatches | gdrpc/net/channel.cpp:43-70 | a report is dispatched callback by callback, hang-up, error, input, output, to the end |
| TcpAccounts.StepPhase | gdrpc/net/tcpConnection.cpp:166-281 | a hang-up without input, the end of the stream, a forced close that runs, and a destruction take the connection down; shutdown and forced close begin to, whatever waits |
| TcpAccounts.RunPhase | gdrpc/net/tcpConnection.cpp:166-281 | over any run the connection is down if and only if such an event has taken it down, and going down or down if and only if one has begun or done so |
| TcpAccounts.RunAccount | gdrpc/net/tcpConnection.cpp:116-255 | over any run: what is written is what the socket takes of what is offered, what is received is what is read, Up and Down are called for each change, and a FIN goes out exactly when a shutdown finds nothing waiting or the last waiting byte is written |
| TcpAccounts.RunQueue | gdrpc/net/tcpConnection.cpp:106-109 | over any run: calls of other threads on a connection that is up are handed over once each, and what is pushed runs first-in first-out |
| TcpAccounts.ForcedCloseCloses | gdrpc/net/tcpConnection.cpp:269-281 | a forced close that has run has taken the connection down |
| TcpAccounts.RunMark | gdrpc/net/tcpConnection.cpp:150-156 | the high-water mark in force is the last one set |
| TcpStream.RunGivesUp | gdrpc/net/tcpConnection.cpp:137-147 | the strings given up are exactly those offered to a dead peer while nothing else waited |
| TcpStream.StepFaithful | gdrpc/net/tcpConnection.cpp:215-244 | each step keeps written and waiting bytes equal to the accepted ones but for whole strings given up |
| TcpStream.StepFinSafe | gdrpc/net/tcpConnection.cpp:173-179 | after a step FIN is behind the data if and only if it was before and the step is not a call of another thread that runs too late |
| TcpStream.RunFinSafe | gdrpc/net/tcpConnection.cpp:166-179 | over any run: at most one FIN, with nothing waiting, and nothing accepted or written after it, if and only if no call ran too late |
| TcpStream.CautiousNeverLate | gdrpc/net/tcpConnection.cpp:106-171 | no call is ever late if no FIN, and no close that gives up output, passes over work that other threads have left to the loop |
| TcpStream.LoopThreadNeverRash | gdrpc/net/tcpConnection.cpp:95-112 | sending and shutting down on the loop's thread is always within that guard |
| TcpStream.GracefulShutdown | gdrpc/net/tcpConnection.cpp:95-179 | under that guard, over any run: at most one FIN, after every accepted byte, and nothing accepted or written after it |
| TcpStream.LoopThreadGraceful | gdrpc/net/tcpConnection.cpp:95-179 | the same for all callers on the loop's thread, without a condition |
| TcpStream.StepWaiting | gdrpc/net/tcpConnection.cpp:106-109 | what other threads leave to the loop waits there until it runs, and is left only while connected |
| TcpStream.RunSendsFin | gdrpc/net/tcpConnection.cpp:229-235 | over any run the FIN is not forgotten: a disconnecting connection without output has sent it, or a shutdown or forced close is on its way |
| TcpStream.PostedSendAfterFin | gdrpc/net/tcpConnection.cpp:166-171 | a send handed over before a shutdown on the loop's thread is accepted after the FIN and lost |
| TcpStream.FinTwice | gdrpc/net/tcpConnection.cpp:229-235 | output that drains while another thread's shutdown waits leads to two FINs |
| TcpStream.StepLifeSafe | gdrpc/net/tcpConnection.cpp:246-255 | a step keeps Up then Down if and only if no stale event closes or writes |
| TcpStream.UpThenDownOnce | gdrpc/net/tcpConnection.cpp:181-213 | over any run, whichever path closes first: Up and Down are called once each and nothing is written after Down if and only if no stale event closes or writes |
| TcpStream.StepSpoils | gdrpc/net/tcpConnection.cpp:246-255 | a second Down, or bytes after Down, cannot be made good |
| TcpStream.OrderlyNeverStale | gdrpc/net/tcpConnection.cpp:188-197 | an owner that destroys between events meets no stale event |
| TcpStream.OrderlyOwner | gdrpc/net/tcpConnection.cpp:181-213 | with such an owner, over any run: Up and Down once each, and nothing written after Down |
| TcpStream.OwnerToldOnce | gdrpc/net/tcpConnection.cpp:246-255 | without stale events, over any run the close callback is called at most once, and only on a connection that is down |
| TcpStream.StepSignals | gdrpc/net/tcpConnection.cpp:128-164 | the high-water callback is called exactly when the waiting output reaches the mark, the write-complete callback exactly when the last waiting byte or a whole direct write goes out, the close callback exactly on a close that is no destruction |
| TcpStream.StepAdvances | gdrpc/net/tcpConnection.cpp:95-281 | nothing called, written, shut down or signalled is taken back, and the phases go one way |
| TcpStream.StepQuiet | gdrpc/net/channel.cpp:43-70 | after a close, what remains of the reported events can neither close nor write |
| TcpStream.DestroyedUnderHangUp | gdrpc/net/tcpConnection.cpp:188-197 | a run in which Down is called twice and the channel is used after its removal |
| ByteBuffers.Buffer.Append | gdrpc/net/tcpConnection.hpp:152-156 | the queue grows by exactly the data; the array stays within max(1024, twice the most ever held) |
| ByteBuffers.Buffer.Retrieve | gdrpc/net/tcpConnection.cpp:283-293 | takes exactly the first bytes, or nothing if there are fewer |
| ByteBuffers.Buffer.RetrieveAsString | gdrpc/net/tcpConnection.hpp:140-144 | returns what it takes |
| ByteBuffers.Buffer.MakeSpace | gdrpc/net/tcpConnection.cpp:330-341 | makes room by compaction or growth, keeps the contents, and grows only within the bound |
| ByteBuffers.Buffer.Compact | gdrpc/net/tcpConnection.cpp:335-340 | moves the contents to the front, in place |
| ByteBuffers.Buffer.ReadFd | gdrpc/net/tcpConnection.cpp:295-320 | the queue grows by exactly what was read, overflow into the extra block included; a failed read changes nothing |
| TcpConnections.TcpConnection.Send | gdrpc/net/tcpConnection.cpp:95-112 | one Send step; write interest exactly while output waits |
| TcpConnections.TcpConnection.SendInLoop | gdrpc/net/tcpConnection.cpp:116-164 | direct write, rest buffered, write interest on, callbacks: exactly the specification's step |
| TcpConnections.TcpConnection.WriteDirectly | gdrpc/net/tcpConnection.cpp:128-147 | the socket takes a prefix; the rest remains unless the peer is dead; a whole write calls the write-complete callback |
| TcpConnections.TcpConnection.Keep | gdrpc/net/tcpConnection.cpp:148-163 | what remains is buffered, write interest goes on, and the high-water callback is called when the mark is reached |
| TcpConnections.TcpConnection.Shutdown | gdrpc/net/tcpConnection.cpp:166-171 | one Shutdown step |
| TcpConnections.TcpConnection.ShutdownInLoop | gdrpc/net/tcpConnection.cpp:173-179 | the FIN goes out exactly when nothing waits |
| TcpConnections.TcpConnection.HandleWrite | gdrpc/net/tcpConnection.cpp:215-244 | writes a prefix of the buffer, and ends interest and connection, with the write-complete callback, when it is drained |
| TcpConnections.TcpConnection.HandleRead | gdrpc/net/tcpConnection.cpp:199-213 | input is appended to the input buffer and the message callback called; no bytes close the connection; a failed read changes nothing |
| TcpConnections.TcpConnection.HandleClose | gdrpc/net/tcpConnection.cpp:246-255 | closes, withdraws interest, calls Down and then the close callback |
| TcpConnections.TcpConnection.ForceClose | gdrpc/net/tcpConnection.cpp:269-275 | one ForceClose step |
| TcpConnections.TcpConnection.ForceCloseInLoop | gdrpc/net/tcpConnection.cpp:277-281 | closes a connection that is still up, and changes nothing otherwise |
| TcpConnections.TcpConnection.ConnectEstablished | gdrpc/net/tcpConnection.cpp:181-187 | one Establish step |
| TcpConnections.TcpConnection.ConnectDestroyed | gdrpc/net/tcpConnection.cpp:188-197 | one Destroy step |
| TcpConnections.TcpConnection.HandleNext | gdrpc/net/channel.cpp:43-70 | the callbacks of a reported event, one by one, in the channel's order; what is read is put into the input buffer |
| TcpConnections.TcpConnection.PostSend | gdrpc/net/tcpConnection.cpp:106-109 | another thread's send: a copy is handed to the loop if the connection is up |
| TcpConnections.TcpConnection.PostShutdown | gdrpc/net/tcpConnection.cpp:166-171 | another thread's shutdown: the state flips at once, the rest is handed to the loop |
| TcpConnections.TcpConnection.RunNext | gdrpc/net/tcpConnection.cpp:108-171 | the loop runs what was handed to it first |
| TcpConnections.TcpConnection.ReadAll | gdrpc/net/tcpConnection.hpp:36-46 | returns and takes all input |
| LoopFlow.NoLostWakeup | gdrpc/net/eventLoop.cpp:65-73 | whenever the loop is at poll with functors waiting, the eventfd is readable or a producer is about to write it, if and only if a round is over or another thread has pushed something |
| LoopFlow.RunToldBy | gdrpc/net/eventLoop.cpp:96-158 | over any run: the queue has seen exactly the functors pushed and queued, in that order; the last swap took what it found; and the eventfd counts the wakeups since it was last read |
| LoopFlow.StepSound | gdrpc/net/eventLoop.cpp:96-158 | every step of the loop or of a producer keeps order and announcement |
| LoopFlow.RunDormant | gdrpc/net/eventLoop.cpp:104-107 | before the first round, exactly a push of another thread leads to a wakeup |
| LoopFlow.EarlyFunctorIsNotAnnounced | gdrpc/net/eventLoop.cpp:96-108 | a run whose first poll may sleep on a functor of the loop's own thread |
| LoopFlow.BatchIsFixed | gdrpc/net/eventLoop.cpp:144-158 | a functor queued while a batch runs does not run in that batch |
| LoopFlow.RoundRunsAll | gdrpc/net/eventLoop.cpp:144-158 | a round runs everything queued before its swap |
| EventLoops.EventLoop.QueueInLoop | gdrpc/net/eventLoop.cpp:96-108 | appends, and writes the eventfd exactly while a batch runs |
| EventLoops.EventLoop.Act | gdrpc/net/eventLoop.cpp:96-108 | the two halves of another thread's call; a push appends its functor |
| EventLoops.EventLoop.HandleRead | gdrpc/net/eventLoop.cpp:115-121 | reading the eventfd resets it |
| EventLoops.EventLoop.RunFunctor | gdrpc/net/eventLoop.cpp:153-155 | runs the next functor of the batch; what it queues, and what other threads push meanwhile, is left for the next batch |
| EventLoops.EventLoop.DoPendingFunctors | gdrpc/net/eventLoop.cpp:144-158 | swaps and runs: exactly what waits at the swap has run, and exactly what arrives after it waits |
| EventLoops.EventLoop.QueueAll | gdrpc/net/eventLoop.cpp:96-108 | what code on the loop's thread queues enters the queue in its order, with exactly what other threads push at each point in between |
| EventLoops.EventLoop.Round | gdrpc/net/eventLoop.cpp:65-73 | one iteration: what has run and what waits is exactly what poll, timers, handlers, batch and other threads amount to; a reported eventfd is read |
| EventLoops.EventLoop.Loop | gdrpc/net/eventLoop.cpp:59-76 | for any rounds: what has run and what waits is exactly as accounted, and all that was ever pushed and queued, in lock order; waiting work is announced if and only if a round is over or another thread has pushed |
| PollerFlow.UpdateAgrees | gdrpc/net/epoll_poller.cpp:67-89 | one update keeps poller, states and kernel in agreement if and only if the channel is the poller's own or new on a free descriptor |
| PollerFlow.UpdateEffect | gdrpc/net/epoll_poller.cpp:67-89 | what an update does to map, state and kernel |
| PollerFlow.RunAgrees | gdrpc/net/epoll_poller.cpp:67-137 | with distinct live descriptors and no use after removal, no epoll_ctl call is ever refused and the kernel watches exactly the channels in state Added, with their events |
| PollerFlow.StepKept | gdrpc/net/epoll_poller.cpp:67-103 | each call under that discipline keeps the agreement |
| PollerFlow.WithdrawnInterest | gdrpc/net/channel.hpp:55-58 | withdrawing all interest takes a descriptor out of the kernel's set if and only if it was in it |
| Pollers.EPollPoller.Update | gdrpc/net/epoll_poller.cpp:120-137 | one epoll_ctl call, refused on the wrong registration |
| Pollers.EPollPoller.UpdateChannel | gdrpc/net/epoll_poller.cpp:67-89 | exactly the update of the tables |
| Pollers.EPollPoller.RemoveChannel | gdrpc/net/epoll_poller.cpp:91-103 | exactly the removal of the tables |
| Pollers.EPollPoller.Poll | gdrpc/net/epoll_poller.cpp:40-64 | every delivered channel is one the poller has, in state Added, told what was reported |
| Pollers.EPollPoller.FillActiveChannels | gdrpc/net/epoll_poller.cpp:110-117 | one channel for each report, in order |
| Pollers.EPollPoller.EnableWriting | gdrpc/net/channel.hpp:47-50 | changing interest and updating is one step of the tables |
| Pollers.EPollPoller.EnableReading | gdrpc/net/channel.hpp:39-42 | the same for reading |
| Pollers.EPollPoller.DisableWriting | gdrpc/net/channel.hpp:51-54 | the same for the end of writing |
| Pollers.EPollPoller.DisableAll | gdrpc/net/channel.hpp:55-58 | the same for the end of all interest |
| Watching.StepNews | gdrpc/net/channel.hpp:39-58 | a step of a connection tells the poller of its new interest exactly when that changes, and takes its leave once; nothing follows |
| Watching.RunJoined | gdrpc/net/epoll_poller.cpp:67-103 | over any run of the connection and other channels, poller, channel and connection stay in step |
| Watching.WatchedExactly | gdrpc/net/tcpConnection.cpp:116-255 | no call is refused; the kernel watches the descriptor exactly while the connection is up, for input always, for output exactly while output waits |
| Watching.ReportedExactly | gdrpc/net/epoll_poller.cpp:40-64 | the events that may be reported to a connection are those the kernel watches it for |

## Left out

- Integer widths: timeouts, weights, lengths and counters are unbounded integers; the narrowing of a 64-bit timeout to int in the wheel is not modelled.
- TimingWheel.TimeWheel.DelTask: comes between the firings of a tick or between ticks; a callback of the wheel adds timers and does nothing else, so a deletion made by a running callback is not modelled.
- RoundRobins.RoundRobin.Add: expects a client that is not in the list yet, as the cluster's constructor guarantees; the same object twice would gain its weight twice.
- `RpcCluster::call` evaluates `Next` twice for one call; the theorems are about `Next`.
- AsyncLoggings.Buffer.Append: the block of a log buffer is a sequence of fixed length and not an array, so aliasing between blocks is not modelled.
- LogFiles.LogFile.RollFile: names are the seconds they are made from; formatting, host name and process number are left out, and so is flushing.
- The logger's `stop()`: lines appended after the last swap may stay unwritten; order and accounting are claimed, not a final flush.
- The consumer's waiting time on the condition variable and the memory model: steps are atomic at the granularity of the lock and of one write.
- ByteBuffers.Buffer.RetrieveAsString: expects a length within the readable bytes; the source does not check it and would copy bytes beyond them.
- The callbacks of a connection's user are recorded as called, whether or not the user has set them, and what they do are steps of their own. The source leaves the write-complete and high-water callbacks to the loop; their place among its other functors is not modelled.
- `handleError` only logs, and is left out; so are priority events.
- TcpConnections.TcpConnection.ConnectEstablished: called once, on a new connection, as its owners do.
- TcpConnections.TcpConnection.ConnectDestroyed: called once, as its owners do.
- TcpConnections.TcpConnection.HandleNext: the calls of a user between two callbacks of one event are separate steps of a run.
- The loop's `quit()`.
- Object lifetimes (`shared_from_this`, `tie`), exceptions, and the descriptors themselves.
- TcpConnections.TcpConnection: its channel records what it tells the poller, and `Watching` carries that record to the poller's tables; no class holds both.
- Protocol codec, RPC dispatch, ZooKeeper client, acceptor, connector, thread pool, addresses, timestamps and JSON: framing that does not round-trip, foreign calls, formatting, or easy members.
