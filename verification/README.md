# RPCZ and Pump, modelled and verified in Dafny

RPCZ is an RPC library over ZeroMQ. Client threads put commands on a frontend
socket; one broker thread decodes them, forwards frames to peers, arms deadline
timers and pushes commands onto one FIFO queue per worker; each worker keeps a
map from event id to the waiting controller and finishes every call by response,
error or timeout. Pump is the small meta-language in `scripts/pump.py` that
generates some of its headers. This project models the parts of both where
something can go wrong, and proves what they are for.

The whole project verifies with `dafny verify dfyconfig.toml`.

## What is modelled

**The engine** (`Engine*`, `Worker*`, `Bags`). A run is any sequence of steps of
clients, the broker (with its sub-steps inside `send_request`), peers, timers,
the clock and the workers; a step that is not enabled does nothing. The number
of clients, workers and calls is unbounded, the connection hash and the header
parser are arbitrary, peers may send any frames at any time, and the frontend
serves its clients in any order. `Worker.Worker` is the worker thread's own
command loop; `Broker.EngineDoesAsBroker` and the contracts of
`BrokerThread.BrokerThread` tie the broker's code to the engine's steps.

Two assumptions are switches of the model, because the code needs them and does
not check them. `honestPeers`: a peer answers an event only on a connection on
which it was asked; `EngineOrder.ForgedAnswerOvertakes` shows a run in which a
peer that guesses an event id makes the worker throw the answer away, and
`EngineAnswers.OrderedIffInTime` says for any peers exactly when every response
is behind a start of its event.
`UniqueIds`: calls go through the public `request`, which takes ids from the
manager's counter, and that 64-bit counter has not gone round;
`WorkerLaws.DuplicateIsNeverFinished` shows what a repeated id does, and
`WorkerLaws.LostIffSlotTaken` says exactly when a call is lost. Conservation and
at-most-once completion need neither.

**The broker's code and the wire** (`Frames`, `Codec`, `Broker`,
`BrokerThread`). Sockets are sequences of flagged frames; a router puts the
sender's identity in front of what it receives and strips it from what it sends,
with the empty delimiter of ZeroMQ RFC 28/REQREP, sections "The DEALER Socket
Type" and "The ROUTER Socket Type".

`BrokerRuns` says what any sequence of commands comes to, and `RouteBack` runs a
request and its reply through this code on both sides. What a
link does to a message, among all links of all processes, is
`Broker.RequestRoutesBack` and the helpers it joins; equal dealer indices at two
processes are no obstacle (`Broker.TwoClientsOfOneServer`).

**The reactor** (`ReactorTimers`, `ReactorSockets`, `Reactor`, `ReactorLaws`).
The class has the program's own loops: the backward swap-with-last deletion, the
timer map, the poll array parallel to the socket list, and handlers that add and
delete sockets while the loop scans. `Reactor.TurnDone` says what one turn does
to the reactor's whole state, and the loop is proved to make such turns.

**The dynamic singleton** (`Singleton`, `SingletonJoin`, `SingletonPointers`).
Threads move one atomic action at a time, with spurious wakeups, through the
weak pointer, the two mutexes, the condition variable and the deleter. A manager
starts threads when it is constructed, any number of them, and its destructor
joins them; they use the helper like all others and end only when the destructor
has told them to.

**Services** (`Services`). The services of one connection, who deletes them, and
the cache of request handlers.

**Pump** (`Pump*`). The recursive-descent parser over a mutable token list, with a
grammar that it is proved to accept exactly (`PumpGrammar`), the interpreter with
its scoped environments, and the line wrapper.

## Findings

The model follows the code; in these places the code does less than one might
expect, and the project says exactly when.

- `WrapCode` does not return on every line (`scripts/pump.py:752-758`): 81
  characters without a space are enough (`PumpWrap.UnbreakableLine`).
  `PumpWrap.WrapCode` returns exactly on `Wrappable` lines. Only the first
  comma-or-semicolon segment is ever split at spaces, because the current line
  is never empty again.
- `ParseElseNode` swallows blank text after an `$if` without `$else`
  (`scripts/pump.py:496-498`), so printing and parsing are inverse on exactly
  the trees that do not have such text (`PumpRoundTrip.WellFormedIsParsable`;
  `PumpRoundTrip.BlankAfterIfIsLost` shows a tree that comes back without it).
- `process_del_sockets` never looks at index 0 (`src/rpcz/reactor.cc:88`), and a
  deletion noted for a socket that is not in the list is forgotten with its
  callback (`src/rpcz/reactor.cc:73`). So every deletion that is noted is made,
  and every callback runs, if and only if each noted socket is in the list and
  not first (`ReactorSockets.AllGoIffAllListed`); `ForgottenDeletions` has an
  input of either kind that fails.
- A client that unbinds an endpoint that is not bound is never answered
  (`src/rpcz/broker_thread.cc:162`, `BrokerThread.AnsweredIffBound`).
- `read_connection_info` takes any non-zero flag for a router, so reading and
  writing an address are inverse exactly for the flags 0 and 1
  (`Codec.InfoReadThenWritten`).
- A call started while another waits under its event id displaces it for good
  (`src/rpcz/worker/worker.cc:91`).
- The destructor of a manager joins the workers (`src/rpcz/manager.cc:129-143`),
  and a worker that handles a request still in its queue asks for the manager
  (`src/rpcz/request_handler.cc:42`, `src/rpcz/connection.cc:50-53`). The weak
  pointer gives it nothing any more, so it waits for `mgr_exists` to be cleared
  (`src/rpcz/manager_dyn_singleton_helper.cc:30-36`), which happens only after
  the join: both threads wait for ever, and so does everyone who asks for a
  manager after them (`SingletonJoin.WorkerAsksTooLate`). A worker that releases
  the last pointer joins itself (`SingletonJoin.WorkerReleasesLast`).
  `SingletonJoin.HangsIff` says exactly which calls do this, `HungForEver` that
  it is final, and `EmptiesIff` that without it every thread in the helper can
  get out again.
- `reactor::is_dirty_` is not initialised; the model starts it with any value.

## Model

| member | source | states |
|---|---|---|
| EngineConservation.Conservation | src/rpcz/connection.cc:62-92 | In every reachable state, for any peers and any interleaving, the frontend queue, the broker and the workers' queues, maps, completions and losses together hold exactly the submitted controllers, each in one place. |
| EngineConservation.AtMostOnce | src/rpcz/worker/worker.cc:112-187 | Over response, error and timeout paths of all workers no controller's handler is used twice, and only submitted ones are used. |
| EngineConservation.SameIdSameCall | src/rpcz/manager.hpp:84-84 | Until the counter wraps, an event id belongs to one call. |
| EngineConservation.StartIsUnique | src/rpcz/broker_thread.cc:239-243 | A call is started at one position of one worker's queue, and only if it was submitted. |
| EngineConservation.NoneLost | src/rpcz/worker/worker.cc:86-92 | With ids from the counter no call ever loses its slot to another. |
| WorkerLaws.WorkerConserves | src/rpcz/worker/worker.cc:41-73 | Whatever commands a worker executes, the controllers they start are waiting, completed or displaced, each once, and every waiting one is filed under its own id. |
| WorkerLaws.WaitingSince | src/rpcz/worker/worker.cc:86-187 | A waiting call has a start in the log, and nothing executed since could have finished it or started another under its id. |
| WorkerLaws.StartedIsSomewhere | src/rpcz/worker/worker.cc:86-92 | A call that was started is waiting, has been completed, or was displaced. |
| WorkerLaws.NothingLost | src/rpcz/worker/worker.cc:91-91 | With distinct event ids in its log a worker displaces no call. |
| WorkerLaws.LostIffSlotTaken | src/rpcz/worker/worker.cc:91-91 | A worker has displaced a call if and only if it started one while another waited under the same id. |
| WorkerLaws.DuplicateIsNeverFinished | src/rpcz/worker/worker.cc:91-91 | Of two calls started one after the other under one id the first is never finished, whatever follows. |
| WorkerLaws.TimedOutByCommand | src/rpcz/worker/worker.cc:112-127 | Every completion by timeout comes from a timeout command for that event. |
| WorkerLaws.AnsweredByData | src/rpcz/worker/worker.cc:146-187 | Every other completion has a data command for that event: without an error code it hands over that command's payload as it came, with one it reports the code. |
| WorkerLaws.FirstFinishWins | src/rpcz/worker/worker.cc:112-187 | A call is completed by the first command behind its start that finishes its event, with what that command brings: the timeout, the error code, or the payload. |
| WorkerLaws.ClosuresRun | src/rpcz/worker/worker.cc:41-73 | A worker runs exactly the closures it is given, in order. |
| WorkerLaws.HandlersAreDeliveries | src/rpcz/worker/worker.cc:129-144 | A worker has a handler for a connection if and only if it was told to deliver something to it, and delivered it in order. |
| Worker.Worker.Run | src/rpcz/worker/worker.cc:41-73 | The command loop executes exactly a prefix of its queue, in order, and stops only after the first quit command or when the queue is dry. |
| Worker.Worker.DoStartRpc | src/rpcz/worker/worker.cc:86-92 | The controller is filed under its event id; one that waited there is displaced; the queue is untouched. |
| Worker.Worker.DoHandleData | src/rpcz/worker/worker.cc:94-110 | An unparsable header changes nothing, a request goes to the connection's handler, a response finishes the call of its event with the payload or the error code. |
| Worker.Worker.Complete | src/rpcz/worker/worker.cc:112-127 | If a call waits under the id it is completed once with the given outcome and its slot is freed; otherwise nothing happens. |
| EngineOrder.Affinity | src/rpcz/broker_thread.cc:303-307 | Every command about a connection is in the queue of that connection's worker, no other worker has a handler for it, and the handler got exactly the connection's deliveries in broker order. |
| EngineOrder.OneHandlerPerConnection | src/rpcz/request_handler_map.hpp:38-46 | In the whole system a connection has at most one request handler. |
| EngineOrder.TimeoutFollowsStart | src/rpcz/broker_thread.cc:211-237 | In any run, with any peers, a timeout in a queue is behind the start of a call with its event id. |
| EngineOrder.StartPrecedesFinish | src/rpcz/broker_thread.cc:217-243 | Although the frame is forwarded before the start is pushed, no response or timeout is ahead of its call's start or in another worker's queue. |
| EngineOrder.DroppedMeansCompleted | src/rpcz/worker/worker.cc:159-164 | A response or timeout that finds no call finds one that is already completed. |
| EngineOrder.ForgedAnswerOvertakes | src/rpcz/broker_thread.cc:217-237 | Without honest peers start need not precede finish: a concrete run. |
| EngineAnswers.OrderedIffInTime | src/rpcz/broker_thread.cc:190-243 | For any peers, every response in every queue is behind a start of its event if and only if each was received after its event had been asked about on a connection of the same worker. |
| EngineAnswers.NoAnswerBeforeItsQuestion | src/rpcz/broker_thread.cc:217-237 | With honest peers, a response in a queue is to a question that is on the wire of its connection. |
| EngineAnswers.AnsweredOnOwnConnection | src/rpcz/worker/worker.cc:146-187 | A call completed by a response or error got just what came, the payload or the error code, on the connection the call was made on, where its question had gone out. |
| EngineDeadlines.NoLostDeadline | src/rpcz/broker_thread.cc:226-232 | A waiting call that asked for a timeout has its timer armed, due exactly its timeout after the broker took it, or its timeout command still in its worker's queue. |
| EngineDeadlines.EveryDeadlineIsKept | src/rpcz/broker_thread.cc:226-237 | A call with a deadline whose start is queued or executed has its timer armed, due exactly its timeout after the broker took it, or its timeout behind its start; one in the broker's hands has that timer armed. |
| EngineDeadlines.DeadlinesComplete | src/rpcz/worker/worker.cc:112-127 | Once timers have fired and queues have drained, every call that asked for a timeout is completed, exactly once. |
| EngineDeadlines.NeverEarly | src/rpcz/broker_thread.cc:226-232 | A call reported as timed out had asked for a timeout, and at least that much time has passed since the broker took it. |
| EngineDeadlines.ArmedWhenTaken | src/rpcz/broker_thread.cc:226-232 | What the model records as the time at which the broker took a call is the time of the step that took it off the frontend. |
| EngineShutdown.QuitDrains | src/rpcz/worker/worker_thread_group.cc:33-37 | A worker that has quit has executed its whole queue, whose last command is the quit, and the broker was joined before. |
| EngineShutdown.BrokerLogFrozen | src/rpcz/manager.cc:129-137 | Once the broker is joined, what it pushed to a queue never changes, however the run goes on. |
| EngineShutdown.ShutdownDrains | src/rpcz/manager.cc:129-137 | However the run goes on after the join, a worker that quits has executed every command the broker ever pushed to it, in order. |
| Frames.WireInjective | src/rpcz/zmq_utils.cc:57-65 | The more flags cut a wire into messages in one way only. |
| Frames.Decode64Encode64 | src/rpcz/zmq_utils.cc:84-90 | A 64-bit number comes back from its eight bytes. |
| Frames.MessageIterator.Next | src/rpcz/zmq_utils.hpp:47-51 | Gives the next frame of the message and never reads beyond its last. |
| Frames.MessageIterator.Drain | src/rpcz/zmq_utils.hpp:41-43 | The destructor leaves the socket at the start of the next message. |
| Frames.ForwardMessages | src/rpcz/zmq_utils.hpp:155-160 | Sends exactly the unread frames of a message, as one message. |
| Frames.WriteVector | src/rpcz/zmq_utils.cc:57-65 | A frame list goes out as one message. |
| Frames.ReadMessageToVector | src/rpcz/zmq_utils.cc:44-55 | Reading a socket on which a frame list was written gives that list, and leaves what follows. |
| Codec.InfoRoundTrip | src/rpcz/connection_info_zmq.hpp:14-40 | Reading a written address gives it back exactly, dealer addresses with an empty sender, and leaves just what follows. |
| Codec.InfoReadThenWritten | src/rpcz/connection_info_zmq.hpp:14-40 | Whatever is read is an address; writing it again gives the same frames if and only if the flag was 0 or 1. |
| Codec.WriteConnectionInfo | src/rpcz/connection_info_zmq.hpp:28-40 | Sends the address's frames, the last with the caller's flag. |
| Codec.ReadConnectionInfo | src/rpcz/connection_info_zmq.hpp:14-26 | Consumes exactly the address's frames of the message. |
| Codec.CommandRoundTrip | src/rpcz/broker_thread.cc:68-103 | The broker understands every client command as the command that was sent. |
| Codec.CommandsDiffer | src/rpcz/internal_commands.hpp:26-34 | No two commands look the same on the wire. |
| BrokerThread.Client.Request | src/rpcz/connection.cc:145-155 | One request is one message with the command's frames; with no data frames the message is left unfinished. |
| BrokerThread.Client.Reply | src/rpcz/connection.cc:172-178 | One reply is one message with the command's frames, under the same condition. |
| BrokerThread.Client.RegisterService | src/rpcz/connection.cc:134-143 | One registration is one message with the command's frames. |
| BrokerThread.Client.SendSimple | src/rpcz/manager.cc:87-118 | Connecting, binding, unbinding and adding a closure are one message each, with the command's frames. |
| BrokerThread.Client.SendQuit | src/rpcz/manager.cc:129-134 | Quitting is one message with the command's frames. |
| RouteBack.SendOver | src/rpcz/broker_thread.cc:181-300 | Through the code of both sides, one message goes from a client of one process to the queue of the connection's worker at the other, and leaves nothing under way. |
| RouteBack.RequestAndReply | src/rpcz/connection.cc:145-178 | A request made by a client reaches the answering worker as data from an address, and a reply to that address reaches the asking worker behind the start of the call, with headers and payloads unchanged. |
| Broker.EngineDoesAsBroker | src/rpcz/broker_thread.cc:217-266 | The engine's steps for a command have the same effect on timers, wire and queues as the broker's handler, and no other. |
| Broker.EngineReceivesAsBroker | src/rpcz/broker_thread.cc:190-209 | The engine takes a message off a data socket as the broker does: header and payload, as they came, for the worker of its connection and no other. |
| Broker.EngineFiresAsBroker | src/rpcz/broker_thread.cc:211-215 | A timer that fires tells its worker which event timed out, and is gone. |
| Broker.RegisteredUnderItsName | src/rpcz/broker_thread.cc:253-265 | A service is registered with the worker of its connection under the name that the client sent. |
| BrokerRuns.TimersAre | src/rpcz/broker_thread.cc:217-237 | Over any sequence of commands, one timer is armed for each call that asked for one, due that long after its command was handled. |
| BrokerRuns.QuitIff | src/rpcz/broker_thread.cc:171-173 | Over any sequence of commands the reactor is told to quit if and only if a client says so. |
| BrokerRuns.SocketsAre | src/rpcz/broker_thread.cc:113-156 | Over any sequence of commands the socket lists grow by exactly the sockets made, in order, so that no index ever changes its socket. |
| BrokerRuns.LastBindWins | src/rpcz/broker_thread.cc:136-169 | The last bind or unbind of an endpoint decides whether it is bound, and to which socket. |
| BrokerRuns.QueuesAre | src/rpcz/broker_thread.cc:68-104 | Over any sequence of commands a worker is given just what they have for it, in their order. |
| BrokerThread.BrokerThread.HandleFrontendSocket | src/rpcz/broker_thread.cc:68-104 | For every client command exactly its message is consumed, and timers, queues, peers, the answer to the client, the socket lists and the bind map change as the command demands and in no other way. |
| BrokerThread.BrokerThread.SendRequest | src/rpcz/broker_thread.cc:217-237 | Arms a timer due the call's timeout from now if it has one, sends the frames in the connection's envelope to the connection's socket only, and pushes the start to the connection's worker. |
| BrokerThread.BrokerThread.ForwardTo | src/rpcz/broker_thread.cc:284-300 | The unread frames go to the connection's peer in its envelope, as one message. |
| BrokerThread.BrokerThread.HandleConnectCommand | src/rpcz/broker_thread.cc:113-128 | A new dealer socket is filed under the index that the client is told. |
| BrokerThread.BrokerThread.HandleBindCommand | src/rpcz/broker_thread.cc:136-156 | A new router socket is filed under the index that the client is told, and under its endpoint. |
| BrokerThread.BrokerThread.HandleUnbindCommand | src/rpcz/broker_thread.cc:158-169 | A bound endpoint's socket is scheduled for deletion on behalf of the client; an unknown endpoint is ignored. |
| BrokerThread.BrokerThread.SocketsDeleted | src/rpcz/broker_thread.cc:175-179 | In whatever order the reactor makes the deletions, the clients that wait for one are told in that order, each as often as it waits, and nothing is left to delete. |
| BrokerThread.AnsweredIffBound | src/rpcz/broker_thread.cc:158-179 | Once the deletions are made, in any order, an unbind has got its client one more answer if and only if the endpoint was bound, and nobody else any more or less. |
| BrokerThread.BrokerThread.HandleDealerSocket | src/rpcz/broker_thread.cc:190-209 | Whatever the message, exactly it is consumed; data reaches the connection's worker if and only if there is an empty delimiter and a header. |
| BrokerThread.BrokerThread.HandleRouterSocket | src/rpcz/broker_thread.cc:181-209 | The same behind the sender's identity, on every early return too. |
| BrokerThread.WorkerThreadGroup.constructor | src/rpcz/worker/worker_thread_group.cc:12-23 | Every worker's queue is set once and starts empty. |
| BrokerThread.WorkerThreadGroup.JoinAll | src/rpcz/worker/worker_thread_group.cc:33-37 | Every queue gets one quit command behind all it had. |
| ReactorTimers.FileKeeps | src/rpcz/reactor.cc:111-113 | Filing keeps the keys ascending and no key without closures. |
| ReactorTimers.FileEnqueues | src/rpcz/reactor.cc:111-113 | Filing a closure in the timer map is queueing it in a stable queue sorted by time. |
| ReactorTimers.DueSlots | src/rpcz/reactor.cc:142-146 | The slots before the upper bound hold exactly the entries that are due. |
| ReactorTimers.AlwaysSound | src/rpcz/reactor.cc:111-159 | Over any sequence of schedulings and passes no closure is lost, none runs before its time, and the waiting ones stay in timestamp, then scheduling order. |
| ReactorTimers.PassRunsDue | src/rpcz/reactor.cc:142-159 | A pass runs exactly the closures with timestamp at most now, in timestamp, then scheduling order, and leaves the others. |
| ReactorTimers.RunsOnce | src/rpcz/reactor.cc:142-159 | No closure runs twice, and none that ran still waits. |
| Reactor.Reactor.RunClosureAt | src/rpcz/reactor.cc:111-113 | The map's queue gains the closure at its stable place. |
| Reactor.Reactor.ProcessClosureRunMap | src/rpcz/reactor.cc:142-159 | Runs exactly the due part of the queue, in order, and returns -1 if and only if nothing is left, otherwise the positive time to the earliest. |
| Reactor.Reactor.ProcessDelSockets | src/rpcz/reactor.cc:83-109 | The backward swap-with-last scan deletes the scheduled sockets above index 0, runs each of their callbacks once in order, and keeps the others as a permutation with index 0 in place. |
| ReactorSockets.DeletionIsExact | src/rpcz/reactor.cc:83-109 | A noted socket is deleted if and only if it is listed and not first; nothing else is deleted, and nothing twice; just the callbacks noted with deleted sockets run, as often as each was noted. |
| ReactorSockets.CallbackRunsIffListed | src/rpcz/reactor.cc:100-101 | A noted callback runs if and only if its socket is listed and not first. |
| ReactorSockets.AllGoIffAllListed | src/rpcz/reactor.cc:71-74 | All that is noted is deleted, and all callbacks run, if and only if every noted socket is listed and not first. |
| ReactorSockets.ForgottenDeletions | src/rpcz/reactor.cc:71-74 | A deletion of an unlisted socket and one of the first socket that are forgotten, with their callbacks. |
| ReactorSockets.OwnedOnce | src/rpcz/reactor.cc:83-109 | By the ownership invariant no socket is deleted twice, and none still listed has been deleted. |
| Reactor.Reactor.RebuildPollItems | src/rpcz/reactor.cc:71-81 | Afterwards poll entry and socket agree at every index and nothing is scheduled any more. |
| Reactor.HandledAreReady | src/rpcz/reactor.cc:132-137 | Whatever handlers add, delete or schedule while the scan goes on, it handles exactly the sockets that poll reports, in order. |
| Reactor.Reactor.Handle | src/rpcz/reactor.cc:58-69 | What handlers add, delete, schedule and end takes effect in order, and nothing else does: the socket list, the notes, the timers and the flags change accordingly. |
| Reactor.Reactor.RunHandler | src/rpcz/reactor.cc:132-137 | The handler that runs is the one added with the polled socket, which is not deleted, whatever handlers did before; its actions take effect. |
| Reactor.Reactor.DispatchReady | src/rpcz/reactor.cc:132-137 | One scan handles exactly the sockets that poll reports, in order, with the effect of all their handlers' actions. |
| Reactor.Reactor.MakeTurn | src/rpcz/reactor.cc:116-138 | From the state found to the state left, a turn deletes what was noted, polls what is left, fires what is due and handles what is ready, and does nothing else. |
| Reactor.Reactor.Loop | src/rpcz/reactor.cc:115-140 | The turns follow one another from the state found to the state left, none after quitting, and stop for the right reason; over the whole run every dispatch is aligned with poll, no socket is deleted twice, and of all timers that handlers scheduled none is lost, early or repeated. |
| ReactorLaws.SocketsAdded | src/rpcz/reactor.cc:58-62 | Whatever handlers do, the list grows by one fresh socket for each that is added, with its handler. |
| ReactorLaws.DeletionsNoted | src/rpcz/reactor.cc:64-69 | A socket is noted for deletion if and only if it was or an action names it, with the callbacks behind those already noted, in order. |
| ReactorLaws.TimersAdded | src/rpcz/reactor.cc:111-113 | Exactly the timers that handlers ask for are scheduled, in order, and wait with the others. |
| ReactorLaws.FlagsSet | src/rpcz/reactor.cc:58-69 | The loop is told to end, and the list marked as changed, by exactly the actions that do so. |
| ReactorLaws.ScanActs | src/rpcz/reactor.cc:132-137 | A scan does just what the handlers of the reported sockets do, one after the other. |
| ReactorLaws.DeletionIsMade | src/rpcz/reactor.cc:64-109 | Over a run of the loop, a deletion that a handler asks for is made in the next turn if the socket is then listed and not first: it is gone for good, and the callback has run as often as it was asked for. |
| ReactorLaws.QuitIsLast | src/rpcz/reactor.cc:115-140 | A handler that ends the loop does so with its turn. |
| ReactorLaws.TimerFires | src/rpcz/reactor.cc:111-159 | A timer that a handler schedules waits until the first later turn that is not before its time, and fires in it. |
| ReactorLaws.AddedIsPolled | src/rpcz/reactor.cc:58-81 | A socket that a handler adds is polled from the next turn on, unless its deletion was asked for as well. |
| Reactor.Reactor.Destroy | src/rpcz/reactor.cc:49-56 | In the end every socket ever added has been deleted exactly once. |
| Singleton.LifetimesExclude | src/rpcz/manager_dyn_singleton_helper.cc:21-56 | For any number of threads and any interleaving at most one manager is between the start of its construction and the end of its destruction, and while there is one nobody may construct. |
| Singleton.ExistsIffClaimed | src/rpcz/manager_dyn_singleton_helper.cc:30-44 | `mgr_exists` is true exactly while a manager is reserved, alive in the wide sense, or being signed off. |
| Singleton.PointersAreCurrent | src/rpcz/manager_dyn_singleton_helper.hpp:47-53 | Every pointer any thread has is to the one live manager, and once returned that is what the weak pointer points to. |
| Singleton.NothingLeftOver | src/rpcz/manager_dyn_singleton_helper.cc:21-27 | With all threads outside and no pointer left, every manager ever built is gone and a new one may be built. |
| Singleton.LivesAdvance | src/rpcz/manager_dyn_singleton_helper.cc:21-27 | A manager's life only goes forward, stage by stage, and its destruction starts exactly with the release of the last pointer. |
| SingletonPointers.GetReturns | src/rpcz/manager_dyn_singleton_helper.hpp:47-53 | A call of `get` returns at once, with one more pointer to the live manager, if and only if the weak pointer can be locked; otherwise it goes on with what the thread had. |
| SingletonPointers.CallReturns | src/rpcz/manager_dyn_singleton_helper.cc:46-56 | A call that goes on comes back, however long it waits and whatever others do, with exactly one more pointer than the thread had or was handed meanwhile, to the live manager. |
| SingletonPointers.PointersMove | src/rpcz/manager_dyn_singleton_helper.cc:21-27 | A copied pointer is one more, a released one is one less, and one that is handed over changes hands. |
| SingletonJoin.NeverStuck | src/rpcz/manager_dyn_singleton_helper.cc:30-44 | No lost wakeup, and no deadlock but one: whenever a thread is inside the helper, some thread inside can take a step or a thread that is being joined can end, without user action or spurious wakeup, unless a destructor joins a thread that is inside the helper, or itself. |
| SingletonJoin.HungForEver | src/rpcz/manager.cc:129-143 | A destructor that joins a thread inside the helper, or itself, never returns, however the run goes on; no thread has or gets a pointer and no other manager is constructed. |
| SingletonJoin.HangsIff | src/rpcz/connection.cc:50-53 | A call starts such a hang if and only if it is a get by a thread that is being joined, or the release of the last pointer by a thread that would be joined or while one is inside the helper. |
| SingletonJoin.EmptiesIff | src/rpcz/manager_dyn_singleton_helper.cc:21-56 | From any reachable state the run can go on so that every thread leaves the helper and the destructor if and only if no destructor hangs. |
| SingletonJoin.DeleteReturnsIff | src/rpcz/manager.cc:129-143 | A running destructor can return if and only if no thread that it joins is inside the helper or is itself. |
| SingletonJoin.WorkerAsksTooLate | src/rpcz/request_handler.cc:38-42 | A concrete run in which a worker asks for the manager while it is joined. |
| SingletonJoin.WorkerReleasesLast | src/rpcz/manager_dyn_singleton_helper.cc:21-27 | A concrete run in which a worker releases the last pointer and joins itself. |
| Services.OneOwnerOrDeleted | src/rpcz/request_handler.cc:58-80 | A service given once is the value of exactly one name or was deleted exactly once, never both. |
| Services.DeletedOnceIffGivenOnce | src/rpcz/request_handler.cc:30-36 | After the destructor nothing was deleted twice if and only if nothing was given twice. |
| Services.LastRegistrationWins | src/rpcz/request_handler.cc:58-63 | The service of a name is the one last registered under it, or else the one it had at first. |
| Services.EachIsAnswered | src/rpcz/request_handler.cc:38-56 | Each request is answered, in order: by the service last registered before it under its name, with its method, or by the error that there is none. |
| Services.RequestHandler.constructor | src/rpcz/request_handler.cc:25-28 | Only a router connection gets services from factories, all of them owned. |
| Services.RequestHandler.RegisterService | src/rpcz/request_handler.cc:58-63 | The new service is owned under the name, and the one it replaces is deleted. |
| Services.RequestHandler.HandleAll | src/rpcz/request_handler.cc:38-63 | Over any deliveries each request is dispatched to the service registered for it at that point, or answered that there is none; exactly the delivered services are taken over, and exactly the replaced ones deleted, in order. |
| Services.RequestHandler.Destroy | src/rpcz/request_handler.cc:30-36 | The loop over the copied map ends with an empty map and deletes every service as often as it was given. |
| Services.RequestHandlerMap.GetHandler | src/rpcz/request_handler_map.hpp:38-46 | A connection keeps its handler; a new one gets a fresh handler of its own. |
| PumpParser.Parser.ParseCodeNode | scripts/pump.py:564-574 | The loop over the shared token list parses like the function on token lists, every turn consuming a token. |
| PumpParser.Parser.ParseAtomicCodeNode | scripts/pump.py:503-561 | The popping parser agrees with the function on result, rest and every way to die. |
| PumpParser.Parser.ParseElseNode | scripts/pump.py:475-500 | The same for else branches, blank tokens and all. |
| PumpGrammar.ParsesIffSpelled | scripts/pump.py:475-574 | For all tokens: the parser reads a token list as a tree and a rest if and only if the grammar says so, where any blank text may stand before `$else` and `$elif`. |
| PumpGrammar.DiesIffUnspelled | scripts/pump.py:475-574 | The parser dies on a token list if and only if no start of it is code that ends there. |
| PumpGrammar.OneReading | scripts/pump.py:564-574 | The grammar is unambiguous. |
| PumpGrammar.BlanksAreSkipped | scripts/pump.py:496-498 | Any blank text in front of an else branch, or of none, makes no difference to what is parsed behind it. |
| PumpGrammar.PrintedIsSpelled | scripts/pump.py:564-574 | Every printing of a well-formed tree is a spelling of it. |
| PumpRoundTrip.CodeRoundTrip | scripts/pump.py:503-574 | Parsing undoes printing: every well-formed tree, in either spelling of its else chains, comes back together with the untouched rest. |
| PumpRoundTrip.ElifIsNestedIf | scripts/pump.py:488-495 | `$elif` parses to the same tree as `$else` with a nested `$if`. |
| PumpRoundTrip.WellFormedIsParsable | scripts/pump.py:564-574 | A tree is what the parser makes of some whole input if and only if it is well formed. |
| PumpRoundTrip.BlankAfterIfIsLost | scripts/pump.py:496-498 | Blank text after an `$if` without `$else` does not come back from printing and parsing. |
| PumpRoundTrip.Normalises | scripts/pump.py:564-574 | Printing what was parsed and parsing it again gives the same tree. |
| PumpRoundTrip.CodeYieldsWf | scripts/pump.py:475-574 | Whatever the tokens, a successful parse gives a well-formed tree. |
| PumpInterpreter.RunCode | scripts/pump.py:702-704 | Running code appends exactly its denotation to the output and leaves the bindings it denotes; it terminates on every tree. |
| PumpInterpreter.RunAtomicCode | scripts/pump.py:656-699 | The same for one node. |
| PumpInterpreter.RunLoop | scripts/pump.py:668-680 | The loop appends exactly the denotation of its range and leaves the caller's bindings alone. |
| PumpInterpreter.CodePushesOnly | scripts/pump.py:656-704 | Running code only pushes bindings on top, one for each `$var` and `$range` directly in it; nested blocks leave no trace. |
| PumpInterpreter.CodeComposes | scripts/pump.py:702-704 | Running two pieces in a row is running them joined, failures included. |
| PumpInterpreter.ForFailsIffTurnDoes | scripts/pump.py:674-680 | A loop fails if and only if one of its turns does. |
| PumpInterpreter.ForIsJoin | scripts/pump.py:674-680 | A loop's output is its turns' texts over the inclusive range joined by the separator. |
| PumpInterpreter.ForSplits | scripts/pump.py:674-680 | A loop splits at any point of its range. |
| PumpInterpreter.UnrollingPreservesMeaning | scripts/pump.py:668-680 | Writing the turns of a loop out one after the other has the same meaning. |
| PumpLaws.TextIsItself | scripts/pump.py:681-682 | Text without directives comes out as it is. |
| PumpLaws.IfChooses | scripts/pump.py:683-688 | `$if` means its branch if the condition is true, its else branch if it is false, or nothing, and fails with its condition. |
| PumpLaws.FirstThatHolds | scripts/pump.py:683-688 | Of any chain of `$if` and `$elif` the first condition that holds chooses the branch, and with none it is the last `$else`, or nothing. |
| PumpLaws.VarThenUse | scripts/pump.py:656-662 | A variable is used with the text that it was given. |
| PumpLaws.RangeThenFor | scripts/pump.py:663-680 | A `$for` over a `$range` joins its turns, one for each number from the first bound to the last. |
| PumpLaws.NearestRange | scripts/pump.py:632-637 | Of the ranges with a name the one bound last counts. |
| PumpLaws.NumbersRead | scripts/pump.py:689-691 | Numbers are printed in decimal, and read back as themselves. |
| PumpWrap.WrapCode | scripts/pump.py:741-768 | Returns exactly on wrappable lines; what it adds holds the line's non-blank characters in order, is indented like the line and then by four more, is the line itself where there is room for it, stays under 80 columns when the unsplit pieces fit, and does not when a later piece is too long for any line. |
| PumpWrap.PlaceSegment | scripts/pump.py:760-766 | A segment goes on the current line if there is room, and starts the next one if there is not; either way no character but white space is lost and the width bound is kept. |
| PumpWrap.SplitSegment | scripts/pump.py:752-758 | The splitting loop ends exactly on splittable segments and loses no character but white space. |
| PumpWrap.SplitEndsIff | scripts/pump.py:752-758 | The loop, as the program runs it, ends if and only if the first window has a space and no later line starts with a word that fills it and goes on. |
| PumpWrap.ContinuationEndsIff | scripts/pump.py:752-758 | The same on continuation lines. |
| PumpWrap.SpacedLinesWrap | scripts/pump.py:741-768 | A line with a space in every window as wide as a continuation line is wrapped. |
| PumpWrap.ShortSegmentsFit | scripts/pump.py:741-768 | If every segment is shorter than a continuation line, the program returns and the width bound holds. |
| PumpWrap.UnbreakableLine | scripts/pump.py:752-758 | A concrete line on which the program never returns. |
| PumpWrap.OverlongLine | scripts/pump.py:760-766 | A concrete line that is wrapped with a line of 80 columns or more, because only the first segment is ever split. |
| PumpWrap.SegmentsPartition | scripts/pump.py:748-748 | The segments joined are the line. |
| PumpWrap.SegmentsAre | scripts/pump.py:748-748 | A line is cut behind every comma or semicolon, or run of them, and nowhere else. |

## Left out

- PumpGrammar.DiesIffUnspelled: says when the parser dies, and the parser's contracts how; which message it should be is not stated on its own.
- PumpWrap.WrapCode: the width bound is stated from pieces that fit to lines under 80 columns, and from a later piece too long for any line to a longer one; between the two it depends on where the piece comes to stand.
- Reactor.Reactor.ProcessClosureRunMap: the time to wait is unbounded; the program narrows it to a signed long.
- Reactor.Reactor.Loop: handlers and turns come from a script; timer closures and deletion callbacks do not call back into the reactor, as in the broker; an interrupted poll goes on to the scan with whatever `revents` are left (`src/rpcz/reactor.cc:124-137`), which is a turn of the model whose ready set is that, as it may be any.
- EngineDeadlines.DeadlinesComplete: liveness is stated for states at rest; that a scheduler brings a run there is not.
- Singleton.LifetimesExclude: constructors do not throw, locking the weak pointer is atomic, and neither a constructor nor a destructor of a manager uses the helper in its own thread.
- SingletonJoin.HungForEver: a thread that joins itself waits; the thread library may throw instead.
- BrokerThread.BrokerThread.SocketsDeleted: that the reactor makes every deletion asked for is its precondition; sockets the broker deletes are listed and not first, which `ReactorSockets.AllGoIffAllListed` needs.
- BrokerThread.BrokerThread.HandleFrontendSocket: the asserts on sizes and indices are preconditions; messages no client sends are outside.
- The engine does not keep the tables of sockets: sending on a connection whose socket was unbound is not ruled out, and the router list does keep such sockets.
- The connection of a call, which the code passes beside the controller, is a field of the controller in the model.
- Controllers still waiting when the workers quit stay waiting; nothing is claimed about them.
- ZeroMQ, TBB queues, Boost threads and protobuf bytes: sockets are frame sequences, queues are sequences, parsing a header is an arbitrary function.
- Wall-clock changes, memory order, socket options, logging and error texts.
- Blocking of a client that waits for the answer to connect, bind or unbind, and the moment between binding and inserting the factories.
- Pump's tokenizer, its regular expressions and `eval`: the parser takes tokens, and evaluating an expression is an arbitrary partial function of the bindings.
- Positions in tokens, meta comments, comment wrapping and the rest of the beautifier, file input and output.
- The protoc plugins, generated callbacks, language bindings, the command-line tool and examples.
