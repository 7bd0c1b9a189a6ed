# Models and proofs of the course's concurrent systems

The repository holds small C and C++ systems programs. Six of them have behaviour that one reading of
one function does not show: threads and processes that interleave, bytes that arrive together, descriptor tables
that are copied and changed. Each of these is modelled as a state machine over its atomic steps, and what
it guarantees is proved for every interleaving.

## How to read it

Each system has a `State` datatype, a total function `Step(s, action)` and `After(s, schedule)`. A blocked
thread, or an answer the kernel cannot give, leaves the state unchanged, so that *every* sequence of actions is a schedule
and a theorem about every schedule is a theorem about every interleaving. What the kernel, the network, the
signals and the other programs decide comes with the actions. Control points are named after source lines.
Histories (everything sent, taken, read, printed, reaped) are fields that no step reads. Liveness is stated over
rounds: a fair round gives each thread at least one turn and may contain anything else, in any order.

Beside each machine stands a class with the source's variables, updated in place. Each of its methods is proved
to perform exactly one step, and `Run` performs any schedule. The theorems about the machine are then theorems about the object.

| files | system | source |
|---|---|---|
| `Router*.dfy`, `Sequences.dfy` | two-thread message router over a kernel message queue | `Labs/Lab 8/server.cpp` |
| `Monitor*.dfy` | network monitor and its interface monitors, as bytes and as messages | `Assignments/A1/netMonitor.cpp`, `Assignments/A1/intfMonitor.cpp` |
| `Select*.dfy` | select server with a receiver and a printing thread | `Labs/Lab 9/server.cpp` |
| `Pipeline*.dfy`, `Tokeniser.dfy` | pipeline launcher: descriptor tables, and the argument tokeniser in front | `Labs/Lab 7/Lab7.cpp` |
| `HardwareDevice.dfy` | kernel thread sweeping a shared buffer, with halt, resume and unloading | `Labs/Lab 4/hardwareDevice.c` |
| `ForkLoop.dfy`, `ForkLives.dfy` | fork loop, signals and wait loop, for any `NUM` | `Labs/Lab 5/sysmonExec.cpp` |

`dafny verify dfyconfig.toml` checks everything.

## Main results

* **Router.** Every interleaving is a run of an atomic FIFO router (`RouterRefinement.Refines`). For each client,
  what it took followed by what waits for it is what the server sent to it; message by message that is what
  entered for it, with its text rendered, and then at most one Quit. Before SIGINT everything that enters is
  forwarded under any load, in rounds in which the main thread has one turn that is not blocked on the mutex; it waits
  at the mutex for ever exactly if it never has such a turn. After SIGINT at any moment it reaches its join; what
  was queued is forwarded first exactly if SIGINT finds the main thread in its inner loop, and the join returns
  exactly if the recv thread is not waiting for a message.
* **Monitor.** The conversation on every connection is a prefix of one regular language although reads may swallow
  messages. At most one turn exists per connection, so at most 26 bytes are ever in flight and the byte-level
  `receiveMessage` always sees whole messages. The handshake completes if no client ends. A run in
  which the served interface is down and can be raised is in exactly one of three states at any moment before SIGINT:
  live, and then its service loop never deadlocks; lost, from the first read that swallows a second message on the
  served connection; or with the server dead, from the first write to a client that is gone. The shutdown loop ends
  if and only if, when it is entered, no client is at its display with an interface that was up and with nothing unread.
  Without Shut Down and Done the whole conversation is a prefix of the same language; Done is a client's last word. The
  comparisons of texts on the byte stream decide what the machine decides on messages.
* **Select server.** The main thread does not interfere with the receiver, whose loop is, iteration by iteration, one
  atomic round on the kernel's answers (`SelectRounds.RoundExactly`). The select set, the client table and the maximum
  agree in every reachable state; one push per readable round; what is printed is a prefix of what was delivered, and
  all of it exactly if the flag is cleared past the main thread's outer test or with nothing queued; every accepted
  client gets exactly one Quit and both threads finish. `fd_client` is overrun
  exactly when the listener becomes ready after three clients have been accepted.
* **Pipeline.** Exactly one write and one read reference are left when both programs start if and only if neither
  pipe end is descriptor 0 or 1. End of file comes exactly when the writer ends if and only if the read end is
  neither 0 nor 1. Both say that the launcher was started with descriptors 0 and 1 open. The writer is cut off exactly
  when the reader ends if and only if one of the two was open.
* **Tokeniser and device.** The in-place loops compute the maximal space-free runs, and a buffer torn in at most one
  place. Halt lets exactly the sweep under way finish; resume brings the next one with a known turn of the thread.
* **Fork loop.** The root and every child are, after any number of their own turns, at a control point that those turns,
  the answer of exec and nothing else decide (`ForkLives.EveryChildLives`, `TheRootLives`); the tree has `NUM` children,
  each execs for its own interface, and each is reaped once by `NUM` + 1 waits.

## Findings: where the code does less than it seems meant to

* Router: nobody gets a message whose `dest` is below 1 or is 4, and all others are put where a client can take them
  (`RouterLosses.DeliveredExactly`, `OnlyReachableTaken`). The first are refused by `msgsnd` (`DestZeroIsLost`); the second
  are sent back to the server, rendered again and go round for ever (`DestFourCirculates`). Fair turns alone do not
  keep the main thread from starving at its mutex (`RouterStarvation.MainCanStarve`, reached in `AtLockIsReached`);
  `StarvesExactly` says when it does. A SIGINT at the outer test abandons the queue (`RouterDrain.DrainedExactly`), and
  the join never returns while the recv thread waits for a message that nobody sends (`RouterJoin.JoinReturns`).
* Monitor: after the handshake only the connection accepted last is served; the others never get past their first
  Link down (`MonitorGuarantees.ConversationLanguage`). The branch for a client that does not confirm is never
  reached (`NeverRefused`). A swallowed Link down stops the exchange until SIGINT
  (`MonitorProgress.SwallowLoses`, `LostForever`, and the run `Losing` in `TurnCanBeLost`). One misnamed interface
  can stop the whole monitor: its client ends in the handshake and the server dies of SIGPIPE when it writes to it
  (`MonitorShutdown.KilledExactly`, and the run `DEADLY` in `MonitorProgress.ServerCanBeKilled`). A client whose
  interface is up can keep the shutdown loop waiting for ever (`MonitorEnding.ShutdownExactly`,
  `MonitorCompletion.StuckForever`, and the run `Sticking` in `MonitorEnding.ShutdownCanStick`). A client that
  outlives the server with nothing to read goes round its loop for ever, printing "Command not known"
  (`MonitorOrphan.ConfusedExactly`, `OrphanSpins`).
* Select server: it stops on a timeout and also when two or more clients are ready at once
  (`SelectShutdown.ClearsExactly`, `ShutdownCause`, and a run in `TwoReadyStop`), and writes past `fd_client` on a fourth
  connection (`OverrunExactly`, `FourthClientOverruns`). What is queued is lost if it stops while the main thread is
  at its outer test (`SelectDrain.DrainedExactly`).
* Device: unloading clears the running flag, but the inner loop does not read it: the thread ends if and only if it is
  outside that loop at this moment, and otherwise sweeps on for ever (`HardwareDevice.EndsExactly`, `SweepsOn`).
* Pipeline: the wait loop at `Labs/Lab 7/Lab7.cpp:178` is never entered, since `pid` is still 0, so the launcher returns
  while its programs run (`Pipeline.NobodyIsWaitedFor`, `ProgramsOutliveParent`); with a positive `pid` the same loop
  would wait for both (`PipelineEnds.WaitsIfPositive`). With the read end on descriptor 0
  the reader keeps its own pipe open (`ReaderBlocksItself`); with the read end on descriptor 1 it is at end of
  file while the writer still runs (`PrematureExactly`).

## Model

| member | source | states |
|---|---|---|
| RouterSafety.RoutingRefinement | Labs/Lab 8/server.cpp:77-136 | end to end, for clients 1 to 3: taken followed by still queued equals sent; the i-th message that is not a shutdown is the i-th message for that client that entered as type 4, source kept, text rendered |
| RouterSafety.AlwaysLock | Labs/Lab 8/server.cpp:79-84 | mutual exclusion, and every front and pop finds a non-empty queue although the size is tested before the lock |
| RouterSafety.AlwaysConserved | Labs/Lab 8/server.cpp:79-135 | received = forwarded, then the message in main's hand, the queue, the one in recv's hand; entered = received followed by what still waits as type 4 |
| RouterSafety.AlwaysMail | Labs/Lab 8/server.cpp:86-103 | for every type but 4: what clients took followed by what waits is what the server sent |
| RouterSafety.AlwaysOutput | Labs/Lab 8/server.cpp:86-103 | the server's whole output is the atomic router's output for the popped messages followed by the Quits for types 1, 2, 3 so far |
| RouterSafety.TakeFirst | Labs/Lab 8/server.cpp:131 | selective receive takes the head of its own type's projection and leaves every other projection alone |
| RouterSafety.DeliverFor | Labs/Lab 8/server.cpp:86-91 | projecting the atomic router's output on a client of type 1 or more gives the rendered messages addressed to it, in order |
| RouterSafety.DeliverDrops | Labs/Lab 8/server.cpp:86-91 | the atomic router puts out the rendered messages with dest 1 or more and drops the others; as many as it was given if and only if there are no others |
| RouterSafety.UndeliverableLost | Labs/Lab 8/server.cpp:77-103 | at any moment of any run the non-Quit output is the popped messages with dest 1 or more, rendered, in order; msgsnd has refused none if and only if every dest is 1 or more |
| RouterLosses.DeliveredExactly | Labs/Lab 8/server.cpp:77-103 | at any moment of any run what was put under a client's type, besides Quits, is the popped messages whose dest is neither below 1 nor 4, rendered, in order; every popped message is there if and only if there are no others |
| RouterLosses.OnlyReachableTaken | Labs/Lab 8/server.cpp:86-103 | in every run whatever a client takes is addressed to it, and is no message with dest below 1 or 4 |
| RouterDrain.EnteredExactly | Labs/Lab 8/server.cpp:86-131 | in every run what has entered as type 4 is what was queued at the start, what each client sent, as it sent it, and what the server sent on with dest 4, in order |
| RouterJoin.AllTaken | Labs/Lab 8/server.cpp:91-102 | what was sent to a client is taken by it, all of it and in order, once it has called msgrcv as often as messages were left, whatever the others do |
| RouterSafety.SentTo | Labs/Lab 8/server.cpp:77-103 | at any moment the output to a client is plain messages in popping order and then its Quit, once, if the broadcast got that far |
| RouterSafety.QuitIsLast | Labs/Lab 8/server.cpp:96-105 | when main is at the join, the output to each client ends with exactly one shutdown message, whatever the moment of SIGINT |
| RouterRefinement.StepSimulates | Labs/Lab 8/server.cpp:77-136 | each step of each thread and client is one atomic operation or none |
| RouterRefinement.Refines | Labs/Lab 8/server.cpp:77-136 | every schedule is a legal run of the atomic FIFO router, ending in the state it is abstracted to |
| RouterShutdown.MeasureStep | Labs/Lab 8/server.cpp:77-105 | once the flag is cleared every unblocked main step lowers the measure and no other step raises it |
| RouterShutdown.NeverStuck | Labs/Lab 8/server.cpp:81 | main waits for the mutex only while recv is about to release it, within two of its steps |
| RouterShutdown.AtMostOnePush | Labs/Lab 8/server.cpp:128-136 | after the flag is cleared recv pushes at most one more message, exactly when it gives up the one it was already after |
| RouterShutdown.RoundProgress | Labs/Lab 8/server.cpp:77-105 | each fair round lowers what remains until main is at the join |
| RouterShutdown.OnlySigint | Labs/Lab 8/server.cpp:111-122 | the flag is cleared if and only if a SIGINT has arrived |
| RouterShutdown.MainReachesJoin | Labs/Lab 8/server.cpp:77-105 | after any run with a SIGINT, enough fair rounds bring main to the join |
| RouterDrain.DrainedExactly | Labs/Lab 8/server.cpp:77-105 | everything pushed before SIGINT is forwarded, in order, before the join if and only if SIGINT found main in its inner loop or the queue empty; in the first case at most one later message is left, in the others nothing more is forwarded |
| RouterDrain.QueueIsForwarded | Labs/Lab 8/server.cpp:77-105 | with enough fair rounds main does come to the join, so a queue that SIGINT found it working on is forwarded |
| RouterDrain.OneInSeven | Labs/Lab 8/server.cpp:79-93 | a forwarding takes seven turns of main, its sleep among them: no run forwards faster |
| RouterDrain.QuitsKeepDest | Labs/Lab 8/server.cpp:86-103 | message_send is reused: every Quit carries the dest of the message forwarded last |
| RouterJoin.BlockedExactly | Labs/Lab 8/server.cpp:81-137 | a turn changes nothing if and only if its thread is over, waits for the mutex while it is taken, or waits for a message of its type that is not there |
| RouterJoin.JoinReturns | Labs/Lab 8/server.cpp:105-137 | after SIGINT, enough fair rounds and no more message entering, recv has ended, so that the join returns, if and only if it was not waiting in msgrcv for a message that is not there |
| RouterLosses.DestZeroIsLost | Labs/Lab 8/server.cpp:86-91 | a message with dest 0, alone in an empty router: after 21 rounds of alternating turns it is popped and forwarded, nothing was sent and nothing waits |
| RouterLosses.DestFourCirculates | Labs/Lab 8/server.cpp:86-91 | a message with dest 4, alone in an empty router: after 23k rounds of alternating turns it was sent on at least k times, is on its way again, and nobody has taken anything |
| RouterLiveness.StepNeeds | Labs/Lab 8/server.cpp:77-136 | before SIGINT no step of a thread or client raises the turns needed until n messages are forwarded |
| RouterLiveness.RoundNeeds | Labs/Lab 8/server.cpp:77-136 | a round with a turn of recv and an unblocked turn of main lowers them until n messages are forwarded |
| RouterLiveness.AllForwarded | Labs/Lab 8/server.cpp:77-136 | the first n messages that have entered are forwarded, in order, after more such rounds than needed, however many messages clients send meanwhile |
| RouterLiveness.AlternatingIsLucky | Labs/Lab 8/server.cpp:77-136 | such rounds exist from every state: two turns of main around two of recv |
| RouterStarvation.StarvesExactly | Labs/Lab 8/server.cpp:79-84 | a main thread waiting for the mutex is still there with nothing more forwarded if and only if every turn it had found the mutex taken |
| RouterStarvation.MainCanStarve | Labs/Lab 8/server.cpp:81-135 | fair rounds with one client message each can keep main from the mutex for any number of rounds |
| RouterStarvation.AtLockIsReached | Labs/Lab 8/server.cpp:77-136 | a run from any initial state that gets there |
| RouterServer.Server.constructor | Labs/Lab 8/server.cpp:33-67 | a fresh server is in an initial state |
| RouterServer.Server.SigHandler | Labs/Lab 8/server.cpp:111-122 | SIGINT clears the flag, any other signal changes nothing |
| RouterServer.Server.MsgSend | Labs/Lab 8/server.cpp:91 | msgsnd appends to the kernel queue, or is refused for a type below 1 |
| RouterServer.Server.MainTurn | Labs/Lab 8/server.cpp:77-105 | the in-place turn of main performs its step of the machine, field by field |
| RouterServer.Server.FindFirst | Labs/Lab 8/server.cpp:131 | the search loop finds the first message of a type, or the end |
| RouterServer.Server.RecvTurn | Labs/Lab 8/server.cpp:128-137 | the in-place turn of recv performs its step of the machine |
| RouterServer.Server.Run | Labs/Lab 8/server.cpp:77-136 | any schedule on the object gives the machine's state; mutual exclusion, conservation and the clients' mail hold of it |
| MonitorFraming.RoundTrip | Assignments/A1/netMonitor.cpp:72-81 | send then receive gives the message back and empties the stream if and only if it has no NUL and at most 254 characters, whatever the buffer held |
| MonitorFraming.FirstMessage | Assignments/A1/netMonitor.cpp:72-77 | a first message that fits comes back whole whatever follows it |
| MonitorFraming.Coalesced | Assignments/A1/netMonitor.cpp:72-77 | queued messages of at most 255 bytes read at once: the first is returned and all are consumed |
| MonitorFraming.LaterMessagesKept | Assignments/A1/netMonitor.cpp:72-77 | the later messages survive a read if and only if there were none |
| MonitorFraming.OverrunExactly | Assignments/A1/netMonitor.cpp:72-77 | the returned string runs past the buffer if and only if 255 bytes without a NUL were read and the never cleared last character is none either; a short text without its NUL still comes back whole |
| MonitorFraming.SendMessage | Assignments/A1/netMonitor.cpp:79-81 | the stream grows by the text and one NUL |
| MonitorFraming.ReceiveMessage | Assignments/A1/netMonitor.cpp:72-77 | clearing and refilling the reused buffer in place, value and remaining stream; the last buffer character is never cleared |
| MonitorFraming.Exchange | Assignments/A1/intfMonitor.cpp:67-76 | the round trip on a real stream and a buffer with any stale contents, both directions |
| MonitorConversation.AlwaysInv | Assignments/A1/netMonitor.cpp:156-205 | the invariant of every connection in every interleaving: where its turn is, given where the server is and how many messages were sent |
| MonitorConversation.ClientKeeps | Assignments/A1/intfMonitor.cpp:166-288 | every step of a client keeps it, wherever the server is |
| MonitorConversation.ServerKeeps | Assignments/A1/netMonitor.cpp:156-205 | every step of the server keeps it on every connection |
| MonitorConversation.ClientLight | Assignments/A1/intfMonitor.cpp:235-288 | no client step adds to the bytes and turns on their way, even when its read swallows messages |
| MonitorGuarantees.ConversationLanguage | Assignments/A1/netMonitor.cpp:156-191 | on every connection the sends before Shut Down are a prefix of Ready Monitor Monitoring (Link down, Set Link Up, Link Up, Monitor, Monitoring)*; all but the last connection stop at their first Link down |
| MonitorDone.WholeConversation | Assignments/A1/intfMonitor.cpp:166-288 | on every connection the whole conversation, without Shut Down and Done, is a prefix of that language, also after Shut Down; Done comes at most once, last, after Shut Down, and its sender has ended |
| MonitorDone.LastWord | Assignments/A1/intfMonitor.cpp:278-283 | a client that has read Shut Down sends exactly Done after it if the server's end is there at its next turn, nothing otherwise, and ends with that turn |
| MonitorDone.ClosedExactly | Assignments/A1/netMonitor.cpp:198-204 | the server closes a connection, for good, if and only if the first message it reads there after asking is Done |
| MonitorGuarantees.NeverRefused | Assignments/A1/netMonitor.cpp:173-177 | no client that got as far as confirming is refused |
| MonitorGuarantees.WouldRefuse | Assignments/A1/netMonitor.cpp:173-177 | what the refusal would be: one Shut Down and on to the next client, or the end of the server if the client is gone |
| MonitorGuarantees.TokenConservation | Assignments/A1/intfMonitor.cpp:235-287 | per connection, pending commands + the client's obligation + pending replies + the server's obligation never exceed 1 |
| MonitorGuarantees.BoundedChannels | Assignments/A1/netMonitor.cpp:72-81 | at most 26 bytes are ever in flight to the server and 22 to a client |
| MonitorGuarantees.WholeRead | Assignments/A1/netMonitor.cpp:72-77 | a light queue of messages read as bytes behaves as the message-level read that takes everything |
| MonitorGuarantees.ReadsAreWhole | Assignments/A1/netMonitor.cpp:72-77 | in every reachable state no read in either direction splits a message |
| MonitorBytes.TextsDiffer | Assignments/A1/intfMonitor.cpp:237-278 | no two messages have the same text |
| MonitorBytes.ClientReadsBytes | Assignments/A1/intfMonitor.cpp:235-287 | in every run a client that reads does what its comparisons say of the text in its buffer |
| MonitorBytes.ServerReadsBytes | Assignments/A1/netMonitor.cpp:164-204 | the same for the server at each of its receives: where it goes on, what it answers, whether it closes |
| MonitorBytes.EofReadsBytes | Assignments/A1/netMonitor.cpp:72-77 | a read at the end of the stream returns the empty text that the cleared buffer holds |
| MonitorBytes.ClientWritesBytes | Assignments/A1/intfMonitor.cpp:166-281 | each of the five sends of a client puts its text and a NUL on the stream, and no other step does |
| MonitorGuarantees.NeverConfused | Assignments/A1/intfMonitor.cpp:285-287 | while the server's end is open a client never falls into "Command not known" |
| MonitorOrphan.ConfusedExactly | Assignments/A1/intfMonitor.cpp:235-287 | in every run a client has printed "Command not known" if and only if it has read at the end of its stream |
| MonitorOrphan.OrphanSpins | Assignments/A1/intfMonitor.cpp:169-288 | a client with nothing to read on a connection whose server end is gone never ends and never sends again |
| MonitorOrphan.GoneExactly | Assignments/A1/intfMonitor.cpp:133-288 | in every run a client has ended if and only if it could not connect, its directory was bad, interfaceUp failed, it wrote to a server that was gone, or it has answered Shut Down |
| MonitorGuarantees.UpNeverReports | Assignments/A1/intfMonitor.cpp:243-261 | a client none of whose snapshots was down never sends Link down and says nothing after its first Monitoring before Shut Down |
| MonitorProgress.AlwaysLive | Assignments/A1/netMonitor.cpp:156-191 | with down snapshots and successful interfaceUp on the served connection, no read that swallows and no write that kills, the server works and the turn is not lost |
| MonitorProgress.LiveExactly | Assignments/A1/netMonitor.cpp:156-191 | every such run is live if and only if no read swallowed and no write killed, lost if and only if a read swallowed, dead if and only if a write killed |
| MonitorProgress.TakesOne | Assignments/A1/netMonitor.cpp:72-77 | a read on the served connection that does not swallow is a read of one message |
| MonitorProgress.DistanceBounds | Assignments/A1/netMonitor.cpp:181-191 | in a live run the next message is between one and six steps away |
| MonitorProgress.StepRank | Assignments/A1/netMonitor.cpp:181-191 | no step lowers the rank, and one that keeps it moves neither process |
| MonitorProgress.Progress | Assignments/A1/netMonitor.cpp:181-191 | 7k fair rounds without swallowing bring at least k more messages: no deadlock |
| MonitorProgress.TakingTurnsIsFair | Assignments/A1/netMonitor.cpp:181-191 | such rounds exist from every state: the server, reading one message at a time, and the served client take turns |
| MonitorProgress.LinkDownIsAnswered | Assignments/A1/netMonitor.cpp:184-187 | within 21 such rounds a Link down is followed by Set Link Up, Link Up, Monitor |
| MonitorProgress.SwallowLoses | Assignments/A1/netMonitor.cpp:172-190 | a read can only swallow a Link down behind a Monitoring, and then the turn is lost |
| MonitorProgress.LostForever | Assignments/A1/netMonitor.cpp:181-191 | then nothing is sent on the served connection again before SIGINT, whatever happens |
| MonitorProgress.TurnCanBeLost | Assignments/A1/netMonitor.cpp:156-178 | a run in which that happens, for any number of interfaces |
| MonitorProgress.ServerCanBeKilled | Assignments/A1/netMonitor.cpp:164-170 | the run DEADLY: with two or more interfaces, the first of them misnamed, the server is dead before the last client is sent anything |
| MonitorCompletion.HandshakeCompletes | Assignments/A1/netMonitor.cpp:156-178 | in runs in which no client ends, 40 fair rounds per interface and 20 more bring the server to its service loop, whatever reads swallow |
| MonitorCompletion.AlwaysComing | Assignments/A1/netMonitor.cpp:193-205 | in every run the client the shutdown loop waits for has an answer there or under way, or is at its display, where it may stay |
| MonitorEnding.ShutdownExactly | Assignments/A1/netMonitor.cpp:193-209 | from any moment in the shutdown loop, 20 fair rounds per interface and 20 more end it (exit, or SIGPIPE) if and only if at that moment no client still to be read from is at its display, up, with nothing unread; otherwise the server waits for the first such client |
| MonitorEnding.DecidedAtEntry | Assignments/A1/netMonitor.cpp:191-209 | when the loop is entered, that condition over all clients decides whether it ends |
| MonitorCompletion.ShutdownCompletes | Assignments/A1/netMonitor.cpp:193-209 | a step of it: after these rounds the server has ended or waits for a client that stays with its display, and not both |
| MonitorCompletion.StuckForever | Assignments/A1/intfMonitor.cpp:245-256 | such a client keeps it there until another SIGINT |
| MonitorCompletion.DownNeverSticks | Assignments/A1/intfMonitor.cpp:243-261 | a client whose snapshots were all down is never the one |
| MonitorEnding.ShutdownCanStick | Assignments/A1/netMonitor.cpp:156-205 | a run in which that happens, for any number of interfaces that are up |
| MonitorEnding.SigintsEnd | Assignments/A1/netMonitor.cpp:193-205 | one more SIGINT in each blocked read ends the shutdown loop, as many as there are clients left to read, with nothing read; one outside the read changes nothing |
| MonitorShutdown.ShutDownOnce | Assignments/A1/netMonitor.cpp:193-205 | Shut Down is sent exactly once to each client the loop has passed, never before it, and at most once if the server is killed by SIGPIPE |
| MonitorShutdown.OnlyAfterSigint | Assignments/A1/netMonitor.cpp:191-194 | without a SIGINT the shutdown loop is never entered |
| MonitorShutdown.KilledExactly | Assignments/A1/netMonitor.cpp:170-198 | in every run the server is dead of SIGPIPE if and only if it wrote Monitor or Shut Down to a client that was gone |
| MonitorShutdown.SigintHeeded | Assignments/A1/netMonitor.cpp:181-191 | a SIGINT that ends the blocked read leads to the shutdown loop at once; otherwise the service loop ends after at most one more message, or waits for one |
| MonitorShutdown.LastMessage | Assignments/A1/netMonitor.cpp:181-191 | a SIGINT just before the read lets the server read and answer one more message, one in the read leaves everything unread |
| MonitorShutdown.FlagExactly | Assignments/A1/netMonitor.cpp:53-64 | in every run the flag is cleared if and only if a SIGINT has come in the service loop or the shutdown loop |
| MonitorSession.Session.constructor | Assignments/A1/netMonitor.cpp:85-133 | the initial state over any positive number of different client processes |
| MonitorSession.Session.SendMessage | Assignments/A1/netMonitor.cpp:79-81 | a send on a connection, or SIGPIPE when its client is gone |
| MonitorSession.Session.ReceiveMessage | Assignments/A1/netMonitor.cpp:72-77 | a read of whole messages: first one returned, swallowed ones gone, empty text at end of file, blocked otherwise |
| MonitorSession.Session.ServerTurn | Assignments/A1/netMonitor.cpp:156-205 | the in-place turn of the server performs its step of the machine |
| MonitorSession.Session.HandshakeTurn | Assignments/A1/netMonitor.cpp:156-178 | accept, Ready, Monitor, Monitoring, with retRecv reassigned |
| MonitorSession.Session.HandshakeRead | Assignments/A1/netMonitor.cpp:164-174 | the two reads of the handshake |
| MonitorSession.Session.ServiceTurn | Assignments/A1/netMonitor.cpp:181-191 | one message of the service loop on retRecv |
| MonitorSession.Session.AskTurn | Assignments/A1/netMonitor.cpp:194-198 | the next client is sent Shut Down, or all have been |
| MonitorSession.Session.QuitTurn | Assignments/A1/netMonitor.cpp:200-204 | one answer in the shutdown loop, close on Done |
| MonitorSession.Session.SignalHandler | Assignments/A1/netMonitor.cpp:53-64 | SIGINT clears the flag and ends a blocked read |
| MonitorSession.Session.ClientTurn | Assignments/A1/intfMonitor.cpp:133-288 | one client process takes its own in-place step, the others are untouched |
| MonitorClient.TurnsKeep | Assignments/A1/intfMonitor.cpp:166-288 | any number of turns of a client keeps the conversation invariant while the server stays where it is |
| MonitorClient.InterfaceMonitor.constructor | Assignments/A1/intfMonitor.cpp:60-133 | a client before it connects |
| MonitorClient.InterfaceMonitor.SendMessage | Assignments/A1/intfMonitor.cpp:74-76 | a send, or the end of the process when the server has left the connection |
| MonitorClient.InterfaceMonitor.ReceiveMessage | Assignments/A1/intfMonitor.cpp:67-72 | the first message and what the read leaves; blocked, or empty at end of file |
| MonitorClient.InterfaceMonitor.Obey | Assignments/A1/intfMonitor.cpp:237-287 | where each command leads, "Command not known" for all others |
| MonitorClient.InterfaceMonitor.Listen | Assignments/A1/intfMonitor.cpp:235-287 | the blocking receive and what follows from it |
| MonitorClient.InterfaceMonitor.Work | Assignments/A1/intfMonitor.cpp:133-268 | the steps that leave the connection alone: connect, directory check, snapshot, display, raising the link |
| MonitorClient.InterfaceMonitor.Step | Assignments/A1/intfMonitor.cpp:133-288 | the in-place turn of a client performs its step of the machine |
| MonitorClient.InterfaceMonitor.Run | Assignments/A1/intfMonitor.cpp:169-288 | the command loop for any number of turns stays in the language and within the bounds |
| MonitorSession.Session.Run | Assignments/A1/netMonitor.cpp:156-205 | any schedule on the object; every conversation on it is in the language and nobody is refused |
| SelectSafety.AlwaysSelectSet | Labs/Lab 9/server.cpp:55-88 | in every reachable state activeFDs is the listener and the accepted clients, distinct, in fd_client in order, and fd_max is its maximum, also after failed accepts |
| SelectSafety.AlwaysLock | Labs/Lab 9/server.cpp:173-178 | mutual exclusion, and every front and pop finds a message |
| SelectSafety.AlwaysConserved | Labs/Lab 9/server.cpp:96-180 | pushed = printed, then the one in main's hand, then mesQ; read = pushed, then the one in the receiver's hand |
| SelectSafety.PrintedInOrder | Labs/Lab 9/server.cpp:166-182 | what is printed of a client is a prefix of what was read from it |
| SelectDrain.PrintedIsDelivered | Labs/Lab 9/server.cpp:96-180 | in every run what the server has read is what the kernel delivered, text by text (the empty text for a failed recv), and what it has printed is a prefix of that, overall and client by client |
| SelectRounds.Independent | Labs/Lab 9/server.cpp:55-180 | main does not interfere: the receiver's part of the state is what the receiver makes by itself of the answers of its own unblocked turns |
| SelectRounds.RoundExactly | Labs/Lab 9/server.cpp:55-118 | from the head of the loop, the turns of one iteration, whatever main does in between, amount to one undivided round: nothing on an error, one accept, one text read and pushed, or the flag cleared |
| SelectRounds.KnocksExactly | Labs/Lab 9/server.cpp:60-68 | the number of rounds with the listener ready is that of the answers of select that say so |
| SelectRounds.BlockedExactly | Labs/Lab 9/server.cpp:57-191 | a turn changes nothing if and only if its thread is over, waits for the mutex while it is taken or for the other thread, or is given an impossible answer |
| SelectSafety.OnePushPerRound | Labs/Lab 9/server.cpp:90-110 | a readable round matches exactly one client and pushes exactly one message, which comes from it; pushes = rounds over the run |
| SelectLiveness.StepNeeds | Labs/Lab 9/server.cpp:166-182 | while the flag is set no step raises the turns of main until n messages are printed, and an unblocked one lowers them |
| SelectLiveness.PushedIsPrinted | Labs/Lab 9/server.cpp:105-182 | the first n messages pushed are printed, in order, after more unblocked turns of main than needed, if the flag is still set then, however many messages come meanwhile |
| SelectDrain.IdleRounds | Labs/Lab 9/server.cpp:166-182 | with nothing queued, nothing pushed and the flag set, main tests the flag, the size and the inner guard in turn, each once in three turns |
| SelectShutdown.ClearsExactly | Labs/Lab 9/server.cpp:60-116 | an answer of select shuts the server down if and only if it is no error, the listener is not ready and the number of ready clients is not one |
| SelectShutdown.ShutdownCause | Labs/Lab 9/server.cpp:57-116 | in every run, once the flag is cleared the last select had found nothing ready or at least two clients, and not the listener |
| SelectShutdown.AlwaysQuit | Labs/Lab 9/server.cpp:113-191 | once the flag is cleared the receiver has only its loop test left; the Quits sent so far are a prefix of the accepted clients |
| SelectShutdown.Frozen | Labs/Lab 9/server.cpp:113-191 | from then on the client table, the select set and what was pushed never change |
| SelectShutdown.QuitExactlyOnce | Labs/Lab 9/server.cpp:186-191 | when main is past its loop each accepted client was sent exactly one Quit, on distinct descriptors |
| SelectDrain.DrainedExactly | Labs/Lab 9/server.cpp:113-182 | everything queued is printed before the end if and only if the flag is cleared while main is past its outer test or nothing is queued; otherwise nothing more is printed |
| SelectShutdown.RoundProgress | Labs/Lab 9/server.cpp:166-194 | each fair round lowers what remains until main has closed |
| SelectShutdown.BothThreadsFinish | Labs/Lab 9/server.cpp:166-194 | enough fair rounds end both threads with all Quits sent |
| SelectShutdown.OverrunExactly | Labs/Lab 9/server.cpp:68-87 | fd_client is written past its end if and only if the listener becomes ready after C_MAX accepts, and never while it is ready at most C_MAX times |
| SelectShutdown.TwoReadyStop | Labs/Lab 9/server.cpp:90-116 | a concrete run: two clients connect and are then ready at once, and the flag is cleared |
| SelectShutdown.FourthClientOverruns | Labs/Lab 9/server.cpp:68-87 | a concrete run that overruns it: four clients, one after the other |
| SelectHost.Host.constructor | Labs/Lab 9/server.cpp:31-40 | the initial state, listening with nobody connected |
| SelectHost.Host.SelectCall | Labs/Lab 9/server.cpp:57-60 | select's answer in readFDs and s |
| SelectHost.Host.AcceptCall | Labs/Lab 9/server.cpp:68-87 | accept into the array fd_client in place, activeFDs, fd_max and C_CNT |
| SelectHost.Host.ScanTurn | Labs/Lab 9/server.cpp:92-110 | one control point of the scan over fd_client |
| SelectHost.Host.ReceiverTurn | Labs/Lab 9/server.cpp:55-118 | the in-place turn of the receiver performs its step of the machine |
| SelectHost.Host.MainTurn | Labs/Lab 9/server.cpp:166-194 | the in-place turn of main performs its step of the machine |
| SelectHost.Host.Run | Labs/Lab 9/server.cpp:55-194 | any schedule on the object; the select set agrees and no overrun while the listener is ready at most C_MAX times |
| Pipeline.AlwaysTables | Labs/Lab 7/Lab7.cpp:114-183 | in every interleaving each descriptor table is a closed form of its own process's control point |
| Pipeline.NoErrorExit | Labs/Lab 7/Lab7.cpp:122-160 | no dup2 or close of a child ever finds its descriptor closed |
| Pipeline.EndsHeld | Labs/Lab 7/Lab7.cpp:119-163 | child 1 holds a write end from its fork as long as it lives unless the read end is descriptor 1, and child 2 a read end unless the write end is descriptor 0; otherwise its program runs without one |
| Pipeline.OneReferenceEach | Labs/Lab 7/Lab7.cpp:114-176 | past the closes and at both execs exactly one write and one read reference are left, on descriptors 1 and 0, if and only if neither end was descriptor 0 or 1 |
| Pipeline.EndOfFileInTime | Labs/Lab 7/Lab7.cpp:114-176 | in every interleaving: no end of file before the writer has ended unless the read end is descriptor 1, and none missing after it, once the copies are closed, unless it is descriptor 0 |
| Pipeline.PrematureExactly | Labs/Lab 7/Lab7.cpp:119-176 | with both programs there the reader is at end of file if and only if the read end was descriptor 1 |
| Pipeline.EndOfFileExactly | Labs/Lab 7/Lab7.cpp:114-176 | end of file is absent while the writer runs and there as soon as it ends if and only if the read end is neither descriptor 0 nor 1 |
| Pipeline.ReaderBlocksItself | Labs/Lab 7/Lab7.cpp:147-163 | with the read end on descriptor 0 the second program keeps a write end of its own pipe |
| Pipeline.OpenStdioIsClear | Labs/Lab 7/Lab7.cpp:114 | descriptors 0 and 1 open at the start are enough: then neither pipe end is one of them |
| Pipeline.OpenExactly | Labs/Lab 7/Lab7.cpp:114 | when pipe hands out the lowest free descriptors, both conditions on the pipe ends say that descriptors 0 and 1 were open |
| Pipeline.WiredExactly | Labs/Lab 7/Lab7.cpp:114-176 | the wiring is as intended if and only if the launcher is started with descriptors 0 and 1 open |
| Pipeline.EndOfFileIfOpen | Labs/Lab 7/Lab7.cpp:114-176 | end of file comes exactly when the writer ends if and only if the launcher is started with descriptors 0 and 1 open |
| PipelineEnds.BrokenPipeExactly | Labs/Lab 7/Lab7.cpp:114-176 | a writer has no reader left exactly from the moment the reader ends, not before, if and only if the write end is neither descriptor 0 nor 1 |
| PipelineEnds.BrokenPipeIfOpen | Labs/Lab 7/Lab7.cpp:114-176 | with the lowest free descriptors that says that descriptor 0 or 1 was open |
| PipelineEnds.EveryChildLives | Labs/Lab 7/Lab7.cpp:119-166 | in every interleaving each child is where its own number of turns since its fork puts it, whatever the others do: at its program from the fifth, or the second if its end is in place, until that ends |
| PipelineEnds.WaitsIfPositive | Labs/Lab 7/Lab7.cpp:178-183 | a parent that came to the wait loop with a positive pid would return only after both children have ended and been reaped, and then with exactly its seventh turn; with pid 0 it returns at once |
| Pipeline.NobodyIsWaitedFor | Labs/Lab 7/Lab7.cpp:114-183 | in every run the wait loop is not entered, no child is reaped, and the parent returns with exactly its sixth turn |
| Pipeline.ProgramsOutliveParent | Labs/Lab 7/Lab7.cpp:119-183 | six turns of the parent and then five of each child leave the parent returned and both programs running |
| Pipeline.Launcher.WaitTurn | Labs/Lab 7/Lab7.cpp:178-181 | wait on the children that have ended, blocked or failed otherwise |
| Pipeline.Launcher.constructor | Labs/Lab 7/Lab7.cpp:56-58 | the parent before the pipe |
| Pipeline.Launcher.ParentTurn | Labs/Lab 7/Lab7.cpp:114-183 | pipe, forks (copies of the table), closes and the wait loop that never waits |
| Pipeline.Launcher.FirstTurn | Labs/Lab 7/Lab7.cpp:120-142 | the first child's dup2 and closes on its own table |
| Pipeline.Launcher.SecondTurn | Labs/Lab 7/Lab7.cpp:145-166 | the second child's dup2 and closes on its own table |
| Pipeline.Launcher.Run | Labs/Lab 7/Lab7.cpp:114-183 | any interleaving on the object; the wiring result holds of it |
| Tokeniser.TokensAreTheRuns | Labs/Lab 7/Lab7.cpp:70-85 | the tokens are exactly the maximal space-free runs, each once and in order |
| Tokeniser.Retokenise | Labs/Lab 7/Lab7.cpp:70-85 | tokenising the single-space join of the tokens gives the same tokens |
| Tokeniser.StrTok | Labs/Lab 7/Lab7.cpp:70-74 | one strtok call on the buffer in place: first remaining token ended by a NUL, rest kept, NULL exactly when no token is left |
| Tokeniser.CopyArgument | Labs/Lab 7/Lab7.cpp:61-64 | the 64-character buffer holds the argument as a C string |
| Tokeniser.CopyToRow | Labs/Lab 7/Lab7.cpp:73 | strcpy into one row, no other row touched |
| Tokeniser.Tokenise | Labs/Lab 7/Lab7.cpp:61-85 | the loop fills the rows with exactly the tokens, in order, and counts them |
| Tokeniser.BuildVector | Labs/Lab 7/Lab7.cpp:87-112 | row after row, and NULL exactly at the end |
| Tokeniser.PrepareVector | Labs/Lab 7/Lab7.cpp:61-112 | what exec is given: the tokens of the argument in order, ended by NULL and by nothing earlier |
| HardwareDevice.AlwaysTorn | Labs/Lab 4/hardwareDevice.c:81-140 | at every step, with any halts, resumes and unloading, the buffer is next letters, at most one cell in transit, old letters, NUL |
| HardwareDevice.AfterSweeps | Labs/Lab 4/hardwareDevice.c:89-98 | outside a sweep, after n sweeps, all 15 cells are 'a' + n mod 26 |
| HardwareDevice.ReaderSees | Labs/Lab 4/hardwareDevice.c:90-97 | a reader in mid-sweep sees at most two neighbouring letters and one cell in between |
| HardwareDevice.FlagsExactly | Labs/Lab 4/hardwareDevice.c:120-182 | in every run the halt flag is set if and only if halt was the last of halt, resume and unloading, and the running flag until unloading |
| HardwareDevice.HaltStops | Labs/Lab 4/hardwareDevice.c:90-177 | halt, called at any point and not undone: the sweep under way, if there is one, completes with exactly the TurnsLeft-th turn, and no other sweep follows |
| HardwareDevice.HaltedRounds | Labs/Lab 4/hardwareDevice.c:89-98 | a halted thread out of its sweep tests the running flag once in three turns |
| HardwareDevice.EndsExactly | Labs/Lab 4/hardwareDevice.c:81-136 | once the device is unregistered the thread ends, with exactly the TurnsToEnd-th turn, if and only if it was outside its inner loop then |
| HardwareDevice.SweepsOn | Labs/Lab 4/hardwareDevice.c:90-136 | otherwise it sweeps on for ever, one sweep in 34 turns |
| HardwareDevice.ResumeSweeps | Labs/Lab 4/hardwareDevice.c:89-182 | after resume, wherever the thread was, exactly its TurnsLeft-th turn completes the next sweep if it is not halted again |
| HardwareDevice.SweepCompletes | Labs/Lab 4/hardwareDevice.c:91-95 | a sweep takes 32 turns and its result does not depend on the halts and resumes in between |
| HardwareDevice.SweepBuffer | Labs/Lab 4/hardwareDevice.c:91-95 | the loop in place, uninterrupted, does the same |
| HardwareDevice.Device.constructor | Labs/Lab 4/hardwareDevice.c:77-121 | the device as registered |
| HardwareDevice.Device.SimTurn | Labs/Lab 4/hardwareDevice.c:85-100 | the in-place turn of the thread performs its step of the machine |
| HardwareDevice.Device.DeviceIoctl | Labs/Lab 4/hardwareDevice.c:168-185 | halt and resume set and clear the flag, other commands do nothing |
| HardwareDevice.Device.UnregisterDevice | Labs/Lab 4/hardwareDevice.c:131-135 | unloading clears both flags |
| HardwareDevice.Device.Run | Labs/Lab 4/hardwareDevice.c:81-185 | any interleaving on the object keeps the torn-sweep invariant |
| ForkLoop.ProcessTree | Labs/Lab 5/sysmonExec.cpp:31-44 | for any NUM and any mix of exec results: all processes are the root and its own children, no child forks or monitors, and there are exactly NUM of them past the loop |
| ForkLoop.AlwaysTree | Labs/Lab 5/sysmonExec.cpp:31-44 | the invariant behind it: childPid lists exactly the children, distinct |
| ForkLoop.WaitsExactly | Labs/Lab 5/sysmonExec.cpp:99-103 | a root that leaves the wait loop has waited NUM + 1 times and reaped each child once |
| ForkLoop.AnAnswer | Labs/Lab 5/sysmonExec.cpp:100 | once every child has ended wait never blocks |
| ForkLoop.WaitLoopEnds | Labs/Lab 5/sysmonExec.cpp:99-105 | then in every interleaving the wait loop and the root are over exactly from the turn of the root that WaitMeasure says, after NUM + 1 waits |
| ForkLives.EveryChildLives | Labs/Lab 5/sysmonExec.cpp:31-48 | in every interleaving every child is where its own number of turns and the answer of its exec put it, with its own index in i; only a signal or its program's end ends it elsewhere |
| ForkLives.ExecDecides | Labs/Lab 5/sysmonExec.cpp:36-48 | a child is at the other program if and only if its exec succeeded and it has not died; one whose exec failed ends with its sixth turn, and is never there |
| ForkLives.InterfaceEach | Labs/Lab 5/sysmonExec.cpp:26-36 | no two children exec for the same interface, and none for one past NUM |
| ForkLives.TheRootLives | Labs/Lab 5/sysmonExec.cpp:31-99 | when forks succeed the root's own turns decide where it is, three for each child and one for each signal, and its children are the numbers its forks were given, in order |
| ForkLives.ProgramEnds | Labs/Lab 5/sysmonExec.cpp:28-106 | then, with every child ended and wait answered, 2 NUM + 4 more turns of the root end the program, each forked child reaped once |
| ForkLoop.EachSignalledTwice | Labs/Lab 5/sysmonExec.cpp:58-95 | before it waits the root has signalled each child with SIGUSR1 and then each with SIGUSR2, in fork order, nobody else |
| ForkLoop.System.constructor | Labs/Lab 5/sysmonExec.cpp:17-23 | the root alone before its loop |
| ForkLoop.System.LoopTurn | Labs/Lab 5/sysmonExec.cpp:31-40 | one step of the fork loop in any process, on its copy of the variables |
| ForkLoop.System.WaitTurn | Labs/Lab 5/sysmonExec.cpp:99-103 | wait reaps a child that has ended, blocks, or fails with none left |
| ForkLoop.System.RestTurn | Labs/Lab 5/sysmonExec.cpp:41-105 | one step of the rest of the program in any process |
| ForkLoop.System.Run | Labs/Lab 5/sysmonExec.cpp:28-106 | any interleaving on the object keeps the tree and the wait count |

## Assumptions

* Shared flags, sizes and queues are read and written atomically at the source's statements.
* Router: `msgrcv` of a positive type takes the first message of that type; `msgsnd` succeeds for a type of at least 1;
  SIGINT is delivered to the main thread; clients insert only type 4 and take only other types. `sprintf` with the
  process number is a parameter, any function of the text. A Quit is told from a client's equal text by a history mark.
* Monitor: SIGINT arrives once the service loop has been entered; connection i is the i-th accepted; the model has any positive number of
  interfaces (`Assignments/A1/netMonitor.cpp:119` needs two names). A read takes any number of whole
  queued messages; `ReadsAreWhole` is why no part of a message needs considering. A client may end before it
  announces itself or when `interfaceUp` fails.
* Select server: `accept` returns a descriptor that is not open; `select` returns the size of a ready subset of its input.
* Pipeline: `pipe` returns two descriptors that are not open (the lowest ones, where a result says so); `pipe`, `fork`
  and `exec` succeed.
* Fork loop: `fork` succeeds with a fresh process number.

## Left out

- Router after `IPC_RMID`: queued messages may stay undelivered.
- Router record layout: `client.h` is not part of this model; a message is its type, source, dest and text.
- Tokeniser.Tokenise: requires at most 63 characters and at most 3 tokens, the sizes the arrays of the source have room for; beyond them the source writes past its arrays.
- Pipeline.OneReferenceEach: failures of `pipe`, `fork` and `exec`, and a missing second argument (`argc < 2` at line 51 lets `argv[2]` be absent), are not modelled.
- MonitorProgress.Progress: needs runs in which no read swallows a second message, because in the others it does not hold; `LiveExactly` says which are which, and `LostForever` what happens in the others.
- Monitor: fork and exec of the clients, the statistics files and the display; the interface is one boolean snapshot per round.
- Select server: the countdown of `close_time`, queue contents left unprinted at the end, and a text of 256 bytes without a NUL; a text is what is read up to its first NUL.
- HardwareDevice: `read` (its copy arguments are reversed), and that the module's memory is freed some time after unloading. Codes are integers; none exceeds 'z' + 1, so `char` does not wrap.
- ForkLoop: the effect of a signal on a child is only that it may end; failing forks are not modelled.
- Assignments/A2, Labs 1, 2, 3, 6 and `Labs/Lab 5/intfMonitor_solution.cpp`: no state machine of substance, or intended properties the code does not have.
- Console output, sleeps, socket set-up, file paths and data races at the level of the C++ memory model.
