# Verification of DDmuduo

A Dafny model of the reactor server in `src/`: its byte buffer, its epoll poller, the send and close
machine of a connection, the event loops with their functor queues and eventfd wakeups, and the whole
server in which connections are accepted, established, served, closed, erased and destroyed by functors
that hop from loop to loop. `dafny verify dfyconfig.toml` checks everything.

## Layers

- `Sequences.dfy`: facts about sequences.
- `Buffer.dfy`: the class `Buffer` over an array, with compaction, growth and the scatter read, and
  what whole runs of it guarantee.
- `Epoll.dfy`: `updateChannel`, `removeChannel` and epoll_ctl as functions over `channels_`, the kernel
  interest set and a channel's `events_`/`index_`. `EPollPoller.dfy`: the classes `Channel` and
  `EPollPoller` proved against them.
- `Connection.dfy`: one connection as a step function over itself and its poller, and its invariant.
  `ConnectionEffects.dfy`: what each entry does, told by the data alone. `ConnectionTheorems.dfy`: its
  runs. `TcpConnection.dfy`: the class over the concrete buffers, channel
  and poller, proved against the step function, with the event dispatch of `Channel`.
- `Loops.dfy`: any number of loops and foreign threads, each `queueInLoop` or `quit` and the `wakeup`
  that follows it being separate steps. `LoopEffects.dfy`: what each action does, and that loops go on.
  `EventLoop.dfy`: the class proved against those actions.
- `ConnName.dfy`: the printed connection names.
- `Reactor.dfy`: the server. Its steps use the functions of all the layers above; a run is any
  interleaving. `Tokens.dfy`, `ReactorInvariant.dfy`, `ReactorSteps.dfy`: its invariant and the proof
  that every step keeps it. `ReactorTheorems.dfy`: what every run guarantees of memory, descriptors,
  loops and lifecycles. `ReactorData.dfy`, `ReactorNotes.dfy`: what every run guarantees of the streams
  and the callbacks of the connections it serves. `ReactorEffects.dfy`: what each step does, and that no
  loop sticks. `ReactorWitness.dfy`: runs that do happen.
  `TcpServer.dfy`: the class over the event loops, pollers and connection objects.

A connection is named by a `Handle`: its place in the accept order, its loop and its descriptor, none
of which change. The server's loops include the base loop as a loop that may serve connections, so the
single-loop server, where `runInLoop` runs at once, is one of the runs. The loop chosen for a new
connection is arbitrary.

## Assumptions about the environment

- epoll_ctl: ADD needs the descriptor absent, MOD and DEL need it present. epoll_wait reports watched
  channels, each once, with the events asked for or EPOLLERR or EPOLLHUP, and the eventfd only while its
  counter is positive; it may report any part of what is ready, and may time out.
- Reading an eventfd resets its counter; a write that would overflow it is refused.
- `readv` fills its blocks in order; `write` takes any prefix of what it is given or fails with any
  error. accept returns a descriptor that is not open, that is, not one of a connection some
  shared_ptr still owns.
- write(2) on a socket shut down for writing fails with EPIPE, or with the ECONNRESET of a reset still to
  be reported. Only the half-close results for runs with foreign sends use this (`KernelObeys`). The
  program installs no SIGPIPE handler, so unless the application ignores that signal such a write ends
  the process; signals are not part of this model.
- `Buffer::readFd` (src/Buffer.cc:12-46) has no return statement although its caller uses the value; it
  is modelled as returning n.
- `loop()` clears `quit_` (src/EventLoop.cc:68), so a quit issued before it is lost: `EventLoop.RunLoop`
  does so too, and the claims about `quit_` and about wakeups start at the loop test, with an empty
  queue, because the owner does not wake a loop it queues on before `loop()` (src/EventLoop.cc:139).
- `shutdown` tests and sets `state_` in two steps (src/TcpConnection.cc:285-288); it is one step here,
  taken in the loop thread. `send` is called in the loop thread, or its bytes are queued by value.
- The listening address is printed in at most 51 characters and the id counter does not overflow. An
  IPv4 address takes at most 21 (`IpPortLength`); `NamesAreDistinct` shows that 51 is the exact limit.
- User code in a callback makes any sequence of sends, shutdowns and reads of the input on the
  callback's connection, and may queue functors of its own on, or quit, any loop.

Where README.md:639 says that data is buffered only below the high-water mark, the code buffers always
and compares with `>=`; the model follows the code.

## Where the code does not do what one expects

- **A close can run twice.** An event with EPOLLHUP and EPOLLPRI but not EPOLLIN whose read finds end of
  file enters `handleClose` twice. `DownAtMostOnce` and `ClosesAtMostOnce` show that this is the only
  case, in both directions, and `ClosesTwiceInTheServer` gives a run of the server that meets it. No
  freed channel is ever registered even then.
- **An empty mask toggles the registration.** A second `disableAll` on an unregistered channel adds it
  again with no events (src/EPollPoller.cc:97-107). `PollerAgreement` says exactly which sequences of
  masks leave a channel in the kernel: after trailing empty masks it is a matter of their parity.
- **A queued foreign send outlives shutdown.** `sendInLoop` only refuses kDisconnected, so a send queued
  before a shutdown may attempt a `write` after SHUT_WR (`LateSendHappens`); `NoWriteAfterShutWr` shows
  this is the only case, in both directions. The kernel refuses that write, the message is dropped whole
  (`LateSendIsDropped`), and half-close holds all the same (`HalfClose`).
- **`retrieveAsString` may return stale bytes.** It loses nothing exactly when no more is asked for than
  is readable (`Buffer.RetrieveAsString`).

## Model

| member | source | states |
|---|---|---|
| Buffers.InitialShape | src/Buffer.h:27-32 | a new buffer is ordered, empty, and has the whole initial size to write in |
| Buffers.AfterReserve | src/Buffer.h:97-104 | making room keeps 8 <= reader <= writer <= size, keeps the readable length, leaves room for len, and grows only to exactly what is needed |
| Buffers.AfterAppend | src/Buffer.h:107-115 | an append makes len more bytes readable and never shrinks the vector |
| Buffers.AfterRetrieve | src/Buffer.h:76-94 | a retrieve drops min(len, readable) bytes and keeps the size |
| Buffers.AfterReadFd | src/Buffer.cc:32-45 | a read of n bytes makes n more readable, however it is split |
| Buffers.IovCapacity | src/Buffer.cc:29-31 | one readv takes at least 65536 bytes and the tail, and at most max(writable, 131071) |
| Buffers.CopyForward | src/Buffer.h:159-161 | the overlapping forward copy loses nothing, provided the destination is not inside the source |
| Buffers.Buffer.constructor | src/Buffer.h:27-32 | the new buffer has the initial shape and no content |
| Buffers.Buffer.RetrieveAll | src/Buffer.h:90-94 | the content becomes empty and both indices are rewound |
| Buffers.Buffer.Retrieve | src/Buffer.h:76-88 | the first min(len, readable) bytes are dropped |
| Buffers.Buffer.RetrieveAsString | src/Buffer.h:66-73 | the bytes returned and the content left are the old content iff len <= readable |
| Buffers.Buffer.RetrieveAllAsString | src/Buffer.h:61-64 | returns the whole content and empties the buffer |
| Buffers.Buffer.MakeSpace | src/Buffer.h:148-165 | either branch keeps the content and leaves room for len; in the compaction branch the destination is strictly below the source |
| Buffers.Buffer.EnsureWriteableBytes | src/Buffer.h:97-104 | makes room for len and keeps the content |
| Buffers.Buffer.Append | src/Buffer.h:107-115 | the content becomes the old content followed by the data |
| Buffers.Buffer.Readv | src/Buffer.cc:15-31 | the tail is filled first, the stack block gets the rest, and only when two blocks were passed |
| Buffers.Buffer.ReadFd | src/Buffer.cc:12-46 | takes all the kernel has up to 65536 bytes whatever the tail, and at most the tail and, if the tail is shorter than 65536, 65536 more; equals an append of what it takes; an error leaves content and indices alone |
| Buffers.Buffer.AppendOverflow | src/Buffer.cc:40-45 | with the tail full, its bytes and then the stack block become readable |
| Buffers.Buffer.WriteFd | src/Buffer.cc:48-56 | offers the content from peek() on; the bytes the kernel takes are its first n, or none on failure |
| Buffers.BufferIsFifo | src/Buffer.h:66-115 | over any run, bytes taken then content left equal content then bytes put, and the indices stay ordered |
| Buffers.MemoryBound | src/Buffer.h:97-115 | if content never exceeds R the vector never shrinks and never exceeds max(8 + initialSize, 2R + 6, R + 8) |
| Buffers.MemoryBoundIsAttained | src/Buffer.h:148-165 | for every R >= 2 some such run reaches exactly 2R + 6 |
| Epoll.UpdateKeepsAgreement | src/EPollPoller.cc:91-122 | an update keeps index_, channels_ and the kernel in agreement, touches no other descriptor, and its epoll_ctl is not refused |
| Epoll.RemoveKeepsAgreement | src/EPollPoller.cc:124-136 | likewise for a removal, which leaves the channel in neither place |
| Epoll.PollerAgreement | src/EPollPoller.cc:91-167 | for every sequence of updates and removals over distinct descriptors: index_ is decided by the submitted masks, the kernel holds the descriptor iff it is kAdded and then with the last mask, channels_ iff something was submitted; no epoll_ctl is refused |
| Pollers.Channel.constructor | src/Channel.cc:12-20 | a new channel is unregistered with no events |
| Pollers.Channel.EnableReading | src/Channel.h:47-52 | adds EPOLLIN and EPOLLPRI and submits the mask to the poller |
| Pollers.Channel.EnableWriting | src/Channel.h:54 | adds EPOLLOUT and submits the mask |
| Pollers.Channel.DisableWriting | src/Channel.h:55 | removes EPOLLOUT and submits the mask |
| Pollers.Channel.DisableAll | src/Channel.h:56 | submits the empty mask |
| Pollers.Channel.Remove | src/Channel.cc:42-46 | removes the channel from its poller |
| Pollers.EPollPoller.Ctl | src/EPollPoller.cc:139-167 | one epoll_ctl on the interest set, refused exactly when the descriptor's presence does not fit |
| Pollers.EPollPoller.UpdateChannel | src/EPollPoller.cc:91-122 | the poller and index_ become what the update function says |
| Pollers.EPollPoller.RemoveChannel | src/EPollPoller.cc:124-136 | the poller and index_ become what the removal function says |
| Pollers.EPollPoller.HasChannel | src/Poller.cc:10-14 | true iff channels_ maps the descriptor to this channel |
| Pollers.EPollPoller.Poll | src/EPollPoller.cc:32-67 | every active channel is one the kernel watches and carries its reported events, in order; the event list doubles iff it was filled; registration is unchanged |
| Pollers.EPollPoller.FillActiveChannels | src/EPollPoller.cc:70-83 | lists the reported channels in order with their events |
| Connections.StepKeepsInv | src/TcpConnection.cc:61-301 | every handler keeps the connection invariant, disturbs no other descriptor, and has no epoll_ctl refused |
| Connections.SendKeepsInv | src/TcpConnection.cc:211-279 | sendInLoop does, for every message and kernel answer |
| Connections.WriteKeepsInv | src/TcpConnection.cc:114-153 | handleWrite does, for every kernel answer |
| Connections.RunKeepsInv | src/TcpConnection.cc:61-301 | so does every run |
| ConnectionTheorems.OutputIsConserved | src/TcpConnection.cc:211-279 | in every run, bytes given to the kernel then bytes buffered are the accepted messages in order; only messages whose direct write fails with EPIPE or ECONNRESET are dropped, whole; sent bytes are never revised |
| ConnectionTheorems.StepConservesOutput | src/TcpConnection.cc:114-153 | the same for one step |
| ConnectionTheorems.UnsentDataIsWatched | src/TcpConnection.cc:114-279 | from up to close: buffer nonempty iff channel writing iff the kernel mask has EPOLLOUT; the mask is EPOLLIN, EPOLLPRI and that |
| ConnectionTheorems.InputIsConserved | src/TcpConnection.cc:92-113 | bytes consumed from the input buffer then bytes left in it are the bytes delivered, in order |
| ConnectionTheorems.StepLateness | src/TcpConnection.cc:211-279 | a step first attempts a write after SHUT_WR iff it is a late queued send; otherwise nothing is sent after SHUT_WR |
| ConnectionTheorems.NoWriteAfterShutWr | src/TcpConnection.cc:218-227 | no write is attempted after SHUT_WR iff no queued foreign send runs after it |
| ConnectionTheorems.HalfClose | src/TcpConnection.cc:282-301 | in every run, queued foreign sends included, SHUT_WR is issued at most once, only with every accepted byte sent, and no byte follows it |
| ConnectionTheorems.LateSendIsDropped | src/TcpConnection.cc:211-252 | a late send attempts one write, is refused, and is dropped whole; nothing else about the connection changes |
| ConnectionTheorems.LateSendHappens | src/TcpConnection.cc:184-227 | for every message a run in which its queued send attempts a write after SHUT_WR |
| ConnectionTheorems.OwnSendsAreNeverLate | src/TcpConnection.cc:184-194 | without queued foreign sends no write is made after SHUT_WR, whatever the kernel |
| ConnectionTheorems.DisconnectingCompletes | src/TcpConnection.cc:114-140 | a disconnecting connection sends everything and issues SHUT_WR within as many productive writable events as bytes are left to send |
| ConnectionTheorems.ShutdownCompletes | src/TcpConnection.cc:282-301 | from the call of shutdown on a connection that is up, whatever is buffered, and until a close, as many productive writable events as bytes buffered or still to come from queued foreign sends send every accepted byte and issue SHUT_WR |
| ConnectionTheorems.NotesOfStep | src/TcpConnection.cc:211-279 | write-complete is queued iff a successful write leaves nothing unsent, high-water iff the buffered length crosses the mark upwards and with the new length, a close request iff the handler closes |
| ConnectionTheorems.HighWaterAlternates | src/TcpConnection.cc:262-272 | in every run there is one high-water callback per upward crossing of the mark and no other; upward crossings are counted against downward ones |
| ConnectionTheorems.WriteCompleteCounts | src/TcpConnection.cc:225-238 | one write-complete per full drain and per message taken whole |
| ConnectionTheorems.WriteCompleteMeansAllSent | src/TcpConnection.cc:121-135 | a write-complete is queued only when bytes sent equal bytes accepted so far |
| ConnectionTheorems.StatesGoForward | src/TcpConnection.cc:61-89 | the state never goes back, up comes once and before any down |
| ConnectionTheorems.EventIsARun | src/Channel.cc:66-101 | a dispatched event is a run of enabled handlers; how often it closes, and when twice |
| ConnectionTheorems.ClosedSendsNothing | src/TcpConnection.cc:211-222 | after a close nothing is sent or buffered, whatever is dispatched |
| ConnectionTheorems.ClosingEventSendsNothing | src/Channel.cc:70-100 | an event that closes gives nothing to the kernel even if it also reports EPOLLOUT: close is dispatched before write |
| ConnectionTheorems.DownAtMostOnce | src/Channel.cc:70-92 | over a connection's events the down callback runs at most once iff none is of the twice-closing kind |
| ConnectionTheorems.ClosesTwiceHappens | src/Channel.cc:70-92 | an event the kernel may report to a newly established connection that closes it twice and leaves it registered with no events |
| ConnectionEffects.EstablishEffect | src/TcpConnection.cc:61-72 | the new connection is kConnected, watched for EPOLLIN and EPOLLPRI, and otherwise as before |
| ConnectionEffects.SendEffect | src/TcpConnection.cc:211-279 | behind waiting data the message waits; else what the kernel takes is sent and the rest waits; EPIPE and ECONNRESET drop the message, any other error leaves all of it waiting; what waits is watched |
| ConnectionEffects.IgnoredSend | src/TcpConnection.cc:184-222 | a send does nothing unless kConnected, a queued one nothing if kDisconnected |
| ConnectionEffects.WritableEffect | src/TcpConnection.cc:114-153 | the kernel is given as much of the waiting data as it takes; SHUT_WR follows exactly if that was all and a shutdown waits |
| ConnectionEffects.ShutdownEffect | src/TcpConnection.cc:282-301 | a connection that is up becomes kDisconnecting, with SHUT_WR at once exactly if nothing waits; any other is left alone |
| ConnectionEffects.InputEffect | src/TcpConnection.cc:92-99 | reading appends to the input buffer and consuming takes from its front; nothing else changes |
| ConnectionEffects.CloseEffect | src/TcpConnection.cc:156-165 | the connection is down, in channels_ but not in the kernel set, asks to be removed, and keeps its streams |
| ConnectionEffects.DestroyEffect | src/TcpConnection.cc:75-89 | the connection is in neither place; one still kConnected is first taken down with its callback |
| ConnectionEffects.EventEffect | src/Channel.cc:66-101 | hang-up without input closes; input or urgent data is buffered and the message callback runs, or end of file closes; then writability writes |
| TcpConnections.ClosedCallsCommute | src/TcpConnection.cc:156-165 | user calls from the down callback commute with the close request |
| TcpConnections.TcpConnection.constructor | src/TcpConnection.cc:26-51 | a new connection is kConnecting, unregistered, with empty buffers of 1024 bytes |
| TcpConnections.TcpConnection.ConnectEstablished | src/TcpConnection.cc:61-72 | the concrete state becomes that of the establish step and the user's calls |
| TcpConnections.TcpConnection.ConnectDestroyed | src/TcpConnection.cc:75-89 | the concrete state becomes that of the destroy step |
| TcpConnections.TcpConnection.RunCalls | src/TcpConnection.cc:71-99 | user calls run as steps |
| TcpConnections.TcpConnection.HandleRead | src/TcpConnection.cc:92-113 | data is buffered and then the message callback runs, end of file closes and then the down callback runs, an error changes nothing |
| TcpConnections.TcpConnection.HandleWrite | src/TcpConnection.cc:114-153 | the concrete state becomes that of the write step |
| TcpConnections.TcpConnection.HandleClose | src/TcpConnection.cc:156-165 | the concrete state becomes that of the close step and the user's calls |
| TcpConnections.TcpConnection.Send | src/TcpConnection.cc:184-194 | send in the loop thread is the send step |
| TcpConnections.TcpConnection.SendInLoop | src/TcpConnection.cc:211-279 | the concrete state becomes that of the send function |
| TcpConnections.TcpConnection.Shutdown | src/TcpConnection.cc:282-292 | the concrete state becomes that of the shutdown step |
| TcpConnections.TcpConnection.ShutdownInLoop | src/TcpConnection.cc:294-301 | SHUT_WR is issued iff the channel is not writing |
| TcpConnections.TcpConnection.HandleEvent | src/Channel.cc:66-101 | dispatches close, read and write in that order, for every set of events; the read delivers at most what the input buffer, as the close callback left it, and the stack block hold |
| TcpConnections.EventInThreeParts | src/Channel.cc:66-101 | an event is its close, its read and its write, one after the other |
| Loops.ActionKeepsInv | src/EventLoop.cc:65-209 | every atomic action keeps FIFO order, the wakeup and the quit invariants of every loop |
| Loops.ActionKeepsWakeups | src/EventLoop.cc:127-166 | no wakeup or quit is lost, for any number of producers |
| Loops.LoopsAreSafe | src/EventLoop.cc:65-209 | in every interleaving: executed, then the rest of the batch, then the queue is everything queued; no lost wakeup; no missed quit |
| Loops.QuitEndsTheLoop | src/EventLoop.cc:72-111 | a loop told to quit polls at most once more, and not at all unless already in poll |
| Loops.QueuedRunsBeforeNextTest | src/EventLoop.cc:72-92 | everything queued when a poll returns has run, in order, by the next loop test |
| Loops.BatchRunsExactlyTheSwap | src/EventLoop.cc:183-209 | a batch runs exactly what was queued at the swap, however much is queued meanwhile |
| LoopEffects.QueueEffect | src/EventLoop.cc:127-143 | queueInLoop puts any functor at the end of the queue and wakes the target exactly from another thread or while it runs functors |
| LoopEffects.QuitEffect | src/EventLoop.cc:103-111 | quit sets quit_ and wakes the loop exactly from another thread |
| LoopEffects.WakeEffect | src/EventLoop.cc:157-166 | wakeup raises the counter by one, short of its maximum |
| LoopEffects.TestAndPollEffect | src/EventLoop.cc:72-76 | the test leaves the loop exactly if told to quit; poll hands over just its active list |
| LoopEffects.DispatchEffect | src/EventLoop.cc:78-82 | a handled channel is done with; handling the wakeup channel leaves the counter at zero |
| LoopEffects.BatchEffect | src/EventLoop.cc:183-209 | the batch is the queue at the swap; its functors run one by one; then the loop is at its test |
| LoopEffects.LoopsNeverStick | src/EventLoop.cc:65-96 | a loop that has not left can always go on, and poll wakes it if its counter is positive |
| LoopEffects.QuitIsObeyed | src/EventLoop.cc:103-111 | once any thread has called quit the loop polls at most once more, and not at all unless already in poll |
| LoopEffects.TestAfterQuitExits | src/EventLoop.cc:72-96 | the first test after a quit leaves the loop for good |
| LoopEffects.WakeupIsUsedUp | src/EventLoop.cc:146-154 | once the wakeup channel is handled, no poll reports it until the loop is woken again |
| EventLoops.EventLoop.constructor | src/EventLoop.cc:30-54 | a new loop has empty queues and a zero counter |
| EventLoops.EventLoop.Wakeup | src/EventLoop.cc:157-166 | adds one to the counter, or leaves it positive at its maximum |
| EventLoops.EventLoop.HandleRead | src/EventLoop.cc:146-154 | resets the counter |
| EventLoops.EventLoop.QueueInLoop | src/EventLoop.cc:127-143 | appends, and wakes iff called from another thread or while functors run |
| EventLoops.EventLoop.RunInLoop | src/EventLoop.cc:114-124 | runs inline in the loop thread without touching the queue, else queues and wakes |
| EventLoops.EventLoop.Quit | src/EventLoop.cc:103-111 | sets quit_ and wakes iff called from another thread |
| EventLoops.EventLoop.DoPendingFunctors | src/EventLoop.cc:183-209 | runs exactly the functors queued at the swap; what arrives meanwhile is left queued in order with the counter positive, and a quit by a functor or another thread is kept |
| EventLoops.EventLoop.DispatchAll | src/EventLoop.cc:78-82 | handles every active channel, keeping the queue in order and any quit; with the wakeup channel active and nothing waking the loop meanwhile the counter is zero afterwards |
| EventLoops.EventLoop.RunLoop | src/EventLoop.cc:65-96 | forgets an earlier quit; ends after the first pass during which a handler, a functor or another thread calls quit; what it has run and what it leaves queued are exactly what the passes say, beginning with everything queued before |
| EventLoops.EventLoop.RunTurn | src/EventLoop.cc:72-92 | one pass runs what was queued before it, what arrived in poll and what the handlers queued, in that order, and leaves the rest |
| EventLoops.ArrivalsMean | src/EventLoop.cc:127-143 | what a list of calls queues, whether it quits and whether it wakes, call by call |
| EventLoops.ArrivalsQueueInOrder | src/EventLoop.cc:127-143 | calls queue in the order they are made |
| EventLoops.NoQuitBeforeTheLastPass | src/EventLoop.cc:72-92 | nobody calls quit in a pass before the last |
| EventLoops.LastPassQuits | src/EventLoop.cc:72-92 | someone calls quit in the last pass, unless nobody ever does |
| ConnName.ParseInvertsDecimal | src/TcpServer.cc:77 | printing an id loses nothing: it parses back |
| ConnName.IpPortLength | src/InetAddress.cc:20-29 | an IPv4 address and port print in at most 21 characters |
| ConnName.DistinctIdsDistinctNames | src/TcpServer.cc:75-79 | with room in the buffer, distinct ids give distinct names |
| ConnName.NamesAreDistinct | src/TcpServer.cc:75-79 | names are distinct iff the printed address has at most 51 characters |
| ConnName.NameIsWhole | src/TcpServer.cc:75-79 | with room in the buffer a name is the name of the server, the address and the id, whole |
| ConnName.NameForExample | src/TcpServer.cc:75-79 | EchoServer on 127.0.0.1:8000 calls its first connection EchoServer-127.0.0.1:8000#1 |
| Tokens.FunctorsFlow | src/EventLoop.cc:127-209 | no action loses or copies a lifecycle functor |
| Tokens.DownsAreRequested | src/TcpConnection.cc:156-165 | each down callback comes with one close request |
| ReactorSteps.StepKeepsSysInv | src/TcpServer.cc:70-130 | every step of the server keeps its invariant |
| ReactorSteps.ServeKeepsInv | src/EventLoop.cc:78-82 | dispatching an event does, closing inline or through the base loop |
| ReactorSteps.FunctorKeepsInv | src/EventLoop.cc:203-206 | running a functor does |
| ReactorSteps.AcceptKeepsInv | src/TcpServer.cc:70-111 | accepting a connection does, for any loop chosen |
| ReactorTheorems.NoFreedChannelIsRegistered | src/TcpServer.cc:95-130 | in every reachable state each channel in channels_ or the kernel set belongs to a connection the server itself owns, by its map entry or a functor; no epoll_ctl has failed |
| ReactorTheorems.AcceptedFdIsUnused | src/TcpServer.cc:95-102 | an accepted descriptor is in no poller map and belongs to no connection still to be destroyed |
| ReactorTheorems.ActiveChannelsStayRegistered | src/EventLoop.cc:74-91 | from poll to the end of dispatch every active channel is in channels_ and owned, and those ahead are in the kernel set |
| ReactorTheorems.LoopsStaySafe | src/EventLoop.cc:72-209 | FIFO, no lost wakeup and no missed quit in every reachable state of the server |
| ReactorTheorems.ServerRunsItsLoops | src/EventLoop.cc:65-209 | the actions of the given steps of the server, in order, are a run of its loops |
| ReactorTheorems.ServerBatchRunsTheSwap | src/EventLoop.cc:183-209 | between its swap and its end a batch of the server runs exactly what was queued at the swap |
| ReactorTheorems.ServerRunsQueueBeforeNextTest | src/EventLoop.cc:72-92 | everything queued when a poll returns has run, in order, when the loop is next at its test |
| ReactorTheorems.ServerQuitEndsTheLoop | src/EventLoop.cc:72-111 | a loop of the server told to quit polls at most once more, and not at all unless already in poll |
| ReactorTheorems.LifecycleIsConserved | src/TcpServer.cc:110-130 | connectEstablished is waiting or has run, once, before any close; each close request is waiting or answered by one connectDestroyed |
| ReactorTheorems.ClosesAtMostOnce | src/TcpServer.cc:114-130 | a connection closes at most once iff it met no twice-closing event; it is destroyed no more often than it closed, and as often once no close is waiting, so that then the same condition decides both |
| ReactorTheorems.ConnectionsAreAcceptedLessErased | src/TcpServer.cc:102-126 | connections_ is the accepted connections less the erased, each under its own name |
| ReactorTheorems.AcceptNeverOverwrites | src/TcpServer.cc:102 | inserting never overwrites a live entry |
| ReactorTheorems.EveryEventIsServed | src/EventLoop.cc:78-82 | the model never holds back a handler a dispatching loop has reached, whatever the kernel and the user code do |
| ReactorTheorems.EveryFunctorRuns | src/EventLoop.cc:203-206 | nor a functor a batch has reached, whatever the user code does |
| ReactorData.RecordIsTheRun | src/EventLoop.cc:78-92 | the record of a connection is exactly the steps it made over any stretch of a run, in order, and only grows |
| ReactorData.ServedOutputIsConserved | src/TcpConnection.cc:114-279 | output conservation and the EPOLLOUT equivalence for every connection in every reachable state |
| ReactorData.ServedInputIsConserved | src/TcpConnection.cc:92-113 | input conservation for every connection in every reachable state |
| ReactorData.ServedStatesGoForward | src/TcpConnection.cc:61-89 | between any two states of a run a connection never goes back, is up once before any down, and never revises sent bytes |
| ReactorData.ServedHalfClose | src/TcpConnection.cc:282-301 | between any two states of a run, for any kernel: one SHUT_WR at most, with every accepted byte sent, and nothing sent after it |
| ReactorNotes.NotifyFlow | src/EventLoop.cc:127-209 | no action of the loops loses or copies a callback functor |
| ReactorNotes.CallbacksAreConserved | src/TcpConnection.cc:121-126 | every callback a connection asks for over its steps is queued exactly once on its own loop, or is about to be by its running handler |
| ReactorNotes.WriteCompletesAreQueued | src/TcpConnection.cc:225-238 | write-complete is queued on the loop of the connection once per full drain and per message taken whole |
| ReactorWitness.FirstConnection | src/TcpServer.cc:70-111 | from every start not told to quit, some run accepts a connection on the base loop, establishes it at once and returns to poll |
| ReactorWitness.ClosesTwiceInTheServer | src/Channel.cc:70-92 | from every start not told to quit, some run closes a connection twice |
| ReactorEffects.NotesAreQueuedInOrder | src/TcpServer.cc:114-117 | callbacks are queued on the loop of the connection and close requests on the base loop, in the order asked |
| ReactorEffects.EstablishedRuns | src/TcpConnection.cc:61-72 | its functor establishes the connection and runs the up callback, and changes no other connection |
| ReactorEffects.NotifyRuns | src/TcpConnection.cc:121-135 | a callback functor runs the code of the user, and changes no other connection |
| ReactorEffects.DestroyedRuns | src/TcpConnection.cc:75-89 | its functor destroys the connection, and changes no other |
| ReactorEffects.RemoveRuns | src/TcpServer.cc:120-130 | its functor erases the entry of the connection and no other, and queues connectDestroyed on its loop |
| ReactorEffects.ServeRuns | src/Channel.cc:66-101 | a dispatched connection handles its events; on the base loop a close erases it at once, elsewhere its entry stays |
| ReactorEffects.AcceptRuns | src/TcpServer.cc:70-111 | a new connection gets the next id and its own entry, and is established at once on the base loop, later on any other |
| ReactorEffects.AnyConnectionMayBeAccepted | src/TcpServer.cc:70-111 | any descriptor that is not open, a reused one included, can be accepted and given to any loop |
| ReactorEffects.IdsCountConnections | src/TcpServer.cc:77-78 | the next id is one more than the number of connections accepted |
| ReactorEffects.EntryName | src/TcpServer.cc:75-79 | an entry is under the name of the server, the listening address and the id |
| ReactorEffects.EveryLoopGoesOn | src/EventLoop.cc:65-96 | no loop of the server ever sticks: until it has left it can take a step of its own |
| ReactorEffects.AnyEventMayBeReported | src/EPollPoller.cc:32-67 | poll may report any watched connection with any event it is watched for, an error or a hang-up |
| ReactorEffects.ServerQuitIsObeyed | src/EventLoop.cc:103-111 | once any thread of the server calls quit on a loop, that loop polls at most once more |
| TcpServers.TcpServer.NewConnection | src/TcpServer.cc:70-111 | creates, names and inserts the connection and advances the id; connectEstablished runs at once on the base loop and is queued, with its wakeup, on any other |
| TcpServers.TcpServer.RemoveConnection | src/TcpServer.cc:114-117 | erases at once and queues connectDestroyed on the base loop, else queues the removal there with its wakeup |
| TcpServers.TcpServer.RemoveConnectionInLoop | src/TcpServer.cc:120-130 | erases the entry of the connection and queues connectDestroyed on its loop, with the wakeup that needs |

## Left out

- Socket, InetAddress beyond its printed form, Acceptor, Thread, EventLoopThread: system calls, and one owner thread for each loop is taken as running.
- `getNextLoop`: the chosen loop is arbitrary.
- Logging, timestamps, `handleError` and its getsockopt.
- `~TcpServer`, `~EventLoop`, `~Acceptor`: runs have a live server, so in them `connectDestroyed` always answers a close request. `TcpConnection.ConnectDestroyed` has its kConnected branch all the same.
- The lifetime of the raw pointers a foreign `send` or `shutdown` binds: a queued foreign send carries its bytes by value and appears in the runs of one connection, not in those of the server.
- User code acting on a connection other than the one whose callback is running.
- Changing the high-water mark while data is buffered.
- The weak_ptr of `Channel::tie`: `ReactorTheorems.ActiveChannelsStayRegistered` shows an owner exists whenever a channel is dispatched, so its lock never fails.
- The listening channel and the wakeup channel occupy descriptors of their own that no connection has; only their events are modelled.
- The closures stored in `Channel`: `TcpConnections.TcpConnection.HandleEvent` calls the connection's handlers directly.
- The growth policy of std::vector beneath `resize`, size_t wrap-around, allocation failure.
- EventLoops.EventLoop.RunLoop: takes a finite list of passes and what happens in each, because the loop itself need not end; interleaving with other threads inside a pass is the subject of module Loops.
- Buffers.Buffer.Append: its data does not alias the buffer's own array.
