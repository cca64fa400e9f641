# LocalPost, modelled and proved in Dafny

This project models the parts of LocalPost where correctness depends on many interleavings, on a
loop that must agree with a simple description, or on a public grammar, and proves what they are
there for. `dafny verify dfyconfig.toml` checks everything.

| part | files |
|---|---|
| channel: unbounded, bounded, rendezvous | `Channel`, `ChannelProofs`, `ChannelTheorems`, `ChannelOutcomes`, `ChannelState` |
| selector, self-pipe and connection hand-off | `Selector`, `SelectorProofs`, `SelectorRegistration`, `SelectorOutcomes`, `SelectorObject` |
| worker pool | `WorkerPool`, `WorkerPoolProofs`, `WorkerPoolBacklog`, `WorkerPoolOutcomes`, `WorkerExecutor` |
| task group | `TaskGroup`, `TaskGroupProofs`, `TaskGroupOrder`, `TaskGroupOutcomes`, `TaskGroupObject` |
| dependency resolution | `Services`, `ServicesProofs`, `ServicesGuarantees`, `ServicesOnce`, `ServicesMeaning`, `ServiceProvider` |
| URI templates and routing | `UriTemplate`, `UriTemplateProofs`, `Router`, `RouterProofs`, `RouterAnswers` |
| response framing | `Framing`, `HttpClient`, `FramingProofs`, `FramingTheorems`, `FramingWitnesses`, `ReqCtx`, `Connection`, `ConnectionTheorems` |
| server-sent events | `EventStream`, `EventStreamProofs` |
| schema components | `Schemas`, `SchemasProofs`, `SchemasOrder`, `SchemaRegistry` |
| request bodies over ASGI | `Body`, `BodyPump` |
| service lifetimes | `Hosting`, `ServiceLifetime` |
| shared | `Wrappers`, `Strings`, `Decimal` |

**Concurrent parts** are a state record and a step relation. A step is one lock-held section, one
access to shared state where there is no lock, or the code between two awaits. A condition wait
splits threads into blocked, notified and re-checking; a deadline may pass at any pass of a loop; the
thread that `notify` picks is arbitrary. Invariants are proved step by step, guarantees hold in
every reachable state. Beside each step relation stands a class with the fields of the source: each
method is one section, and its postcondition equates the new state with the step function the
invariants are about. What each step comes to is told a second time, in terms of logs, ends, threads and
statuses alone, by the `Outcomes` modules: who ends how for which reason, and what nobody but a given
step may change. The fields of the channel's end objects (open or closed) are sets in its state.

**Loops and printers** are methods proved against a function, and the function is compared with
something independent: templates with their expansions, caching with cache-free resolution, the
printers with readers written from RFC 7230 (sections 3, 4.1 and 7) and from the HTML standard
(sections 9.2.5 and 9.2.6), the worklist with the least closed set. The reader of RFC 7230 asks for
tokens and three digits, unfolds folded lines and folds case by a table of its own, and has its own rule
for responses without a body; values and reasons it takes with their control characters.

Assumed, not proved: a condition variable, a queue append and a flag access are atomic; a task group
of AnyIO is left only when its tasks are done; an adapter's references and schemas depend on the
type alone, and its `schema` does not call back.

## Where the code does not do what is said of it

- A rendezvous channel with two senders can come to rest with a sender and a receiver asleep: the
  single notification of `_take` may reach a sender that waits for its hand-off. It cannot with one
  sender (`RendezvousSafeExactlyForOneSender`).
- "No backlog" (`_executor.py:23-27`): a worker that has been notified still counts as idle, so a
  second task can queue behind a busy worker (`BacklogFreeExactlyForOneTask`).
- `tracked` is documented as "registered" (`_base.py:543-545`). It is raised before the registration
  (`TrackedUnregisteredExactlyWhen`), and a worker's `_OpTrack` that arrives late, after the selector
  has read on and dispatched again, registers a connection that is borrowed
  (`BorrowedRegisteredExactlyWhen`, `BorrowedRegisteredSince`).
- The comment at `_task_group.py:86-87` speaks of completion order; the exceptions are in the order
  in which the tasks were listed (`RaisedInCompletionOrderExactlyWhen`).
- A cached instance that is falsy is not found again: its factory runs once more
  (`OncePerScopeExactlyWhen`).
- Response headers are taken as they are: a transfer coding that does not end in `chunked` may be
  framed in chunks or left without an end, a Content-Length may be wrong, a CRLF in a value makes
  two fields, a name that begins with white space makes one field of two, and any number passes for a
  status (`ArrivesExactlyWhen`, `AllArriveExactlyWhen`, and the examples in `FramingWitnesses`).
- The async dispatcher scans in registration order, the router by literal prefix
  (`SameRouteExactlyWhen`).
- A cached schema result and a recomputed one differ when two types claim one component name
  (`ReproducibleExactlyWhenConsistent`, and for given registrations `SameAgainExactlyWhen`).
- The parts of a server-sent event are not checked: a CR in the data, a line break in a name or an
  id, a NUL in an id and a negative reconnection time do not survive (`TextsArriveExactlyWhen`,
  `EventsArriveExactlyWhen`), and a CR in a comment lets it be read as fields (`CommentIsRead`).
- A disconnect in mid-body ends the stream like a normal end: `aread_body` returns what had arrived
  (`DeliveryIsComplete`, `CutOffLooksWhole`).

## Model

| member | source | states |
|---|---|---|
| `ChannelObject.ChannelState.constructor` | localpost/threadtools/_channel.py:140-188 | a channel begins empty, with no item accepted, one sending and one receiving end |
| `ChannelObject.ChannelState.Create` | localpost/threadtools/_channel.py:20-34 | a negative capacity gives no channel; otherwise a fresh one, unbounded, bounded or rendezvous |
| `ChannelObject.ChannelState.CloneSend` | localpost/threadtools/_channel.py:214-219 | a clone of an open sending end is one more open end; cloning a closed end is refused |
| `ChannelObject.ChannelState.CloneRecv` | localpost/threadtools/_channel.py:298-303 | the same for receiving ends |
| `ChannelObject.ChannelState.CloseSend` | localpost/threadtools/_channel.py:278-286 | closing a sending end once wakes everyone; closing it again does nothing |
| `ChannelObject.ChannelState.CloseRecv` | localpost/threadtools/_channel.py:347-355 | the same for receiving ends |
| `ChannelObject.ChannelState.PutNowait` | localpost/threadtools/_channel.py:222-233 | the item is accepted, or the call says closed, broken or full; a rendezvous takes it only for a receiver without a hand-off |
| `ChannelObject.ChannelState.PutPass` | localpost/threadtools/_channel.py:236-263 | one pass of phase 1 of `put`: deposit, block, time out, or report a closed end |
| `ChannelObject.ChannelState.PutWake` | localpost/threadtools/_channel.py:246-262 | a notified or timed-out sender is back in phase 1 |
| `ChannelObject.ChannelState.HandPass` | localpost/threadtools/_channel.py:263-275 | one pass of phase 2: return when the own item is out, time out, or wait on |
| `ChannelObject.ChannelState.HandWake` | localpost/threadtools/_channel.py:263-275 | a notified or timed-out sender is back in phase 2 |
| `ChannelObject.ChannelState.TakeLocked` | localpost/threadtools/_channel.py:305-312 | taking gives the oldest item, counts it, settles a hand-off and notifies one sender |
| `ChannelObject.ChannelState.GetNowait` | localpost/threadtools/_channel.py:315-323 | the oldest item, or: closed, end of stream, would block |
| `ChannelObject.ChannelState.GetPass` | localpost/threadtools/_channel.py:326-344 | one pass of `get`: take, block, time out, end of stream, or report a closed end |
| `ChannelObject.ChannelState.GetWake` | localpost/threadtools/_channel.py:334-343 | a woken receiver no longer counts as waiting and re-checks |
| `ChannelProofs.ActionKeeps` | localpost/threadtools/_channel.py:164-355 | the invariant survives every lock-held section of every operation by any thread |
| `ChannelProofs.DepositKeeps` | localpost/threadtools/_channel.py:222-254 | a deposit keeps the invariant and the hand-off budget |
| `ChannelProofs.TakeKeeps` | localpost/threadtools/_channel.py:305-312 | a take keeps the invariant and the hand-off budget |
| `ChannelProofs.PutCheckKeeps` | localpost/threadtools/_channel.py:236-263 | a pass of phase 1 keeps the invariant, deadline or not |
| `ChannelProofs.HandCheckKeeps` | localpost/threadtools/_channel.py:263-275 | a pass of phase 2 keeps the invariant, deadline or not |
| `ChannelProofs.GetCheckKeeps` | localpost/threadtools/_channel.py:326-344 | a pass of `get` keeps the invariant, deadline or not |
| `ChannelProofs.CloseSendKeeps` | localpost/threadtools/_channel.py:278-286 | closing the last sending end strands nobody |
| `ChannelProofs.CloseRecvKeeps` | localpost/threadtools/_channel.py:347-355 | closing the last receiving end strands nobody |
| `ChannelTheorems.RunKeeps` | localpost/threadtools/_channel.py:164-355 | the invariant holds along every interleaving |
| `ChannelTheorems.NoLostWakeupForReceivers` | localpost/threadtools/_channel.py:222-275 | while a receiver is blocked un-notified, receivers that are awake or notified number at least the buffered items, and a sender is open; every capacity |
| `ChannelTheorems.NoLostWakeupForSenders` | localpost/threadtools/_channel.py:305-355 | bounded channels: while a sender is blocked un-notified, senders that are awake or notified number at least the free places, and a receiver is open |
| `ChannelTheorems.UnboundedNeverBlocks` | localpost/threadtools/_channel.py:236-262 | no sender of an unbounded channel is ever blocked |
| `ChannelTheorems.SomeReceiverTakes` | localpost/threadtools/_channel.py:326-344 | with an item buffered and a receiver blocked, some receiver takes the oldest item in its next passes whatever its deadline |
| `ChannelTheorems.FifoExactlyOnce` | localpost/threadtools/_channel.py:222-254 | items accepted are items delivered followed by the buffer; a bounded buffer keeps to its capacity |
| `ChannelTheorems.RendezvousBudget` | localpost/threadtools/_channel.py:164-178 | `pending_handoffs <= len(buffer) <= pending_handoffs + 1`; while no receiving end was closed, distinct receivers back every hand-off |
| `ChannelTheorems.RendezvousPut` | localpost/threadtools/_channel.py:236-275 | a rendezvous `put` returns normally exactly when its end is open and its own item is taken or no receiving end is open; a timeout leaves its own item |
| `ChannelTheorems.TicketIsOwn` | localpost/threadtools/_channel.py:254-263 | `items_consumed + len(buffer)` is the position of the item just put, with any others in flight |
| `ChannelTheorems.LoneSenderRun` | localpost/threadtools/_channel.py:236-275 | with at most one sender inside `put` at a time, no rendezvous sender sleeps although it could go on |
| `ChannelTheorems.RendezvousStrandsASender` | localpost/threadtools/_channel.py:311 | a reachable rendezvous state where a sender and a receiver are both blocked un-notified, all ends open, nobody else inside |
| `ChannelTheorems.RendezvousSafeExactlyForOneSender` | localpost/threadtools/_channel.py:236-312 | k concurrent senders are never stranded if and only if k <= 1 |
| `ChannelOutcomes.PutOutcome` | localpost/threadtools/_channel.py:236-275 | a pass of phase 1 of `put` is a success, or goes on to phase 2, exactly when its own item went in; it times out exactly when the deadline is past, both sides are open and there is no place; it says closed exactly when its end is closed or no receiver is left; a refusal moves no item |
| `ChannelOutcomes.HandOutcome` | localpost/threadtools/_channel.py:263-275 | a pass of phase 2 moves no item, and returns, times out, says closed or waits for exactly one reason each |
| `ChannelOutcomes.PutNowaitOutcome` | localpost/threadtools/_channel.py:222-233 | `put_nowait` says yes exactly when its item went in; each refusal has exactly one reason and moves no item |
| `ChannelOutcomes.GetOutcome` | localpost/threadtools/_channel.py:326-344 | `get` hands out an item exactly when that item, the oldest, came out; end of stream exactly when its end is open, nothing is buffered and no sender is left; each other answer has exactly one reason and moves no item |
| `ChannelOutcomes.GetMoves` | localpost/threadtools/_channel.py:326-344 | a pass of `get` blocks its thread or lets it go, and touches no other thread and no end |
| `ChannelOutcomes.GetNowaitOutcome` | localpost/threadtools/_channel.py:315-323 | the same for `get_nowait` |
| `ChannelOutcomes.CloneSendOutcome` | localpost/threadtools/_channel.py:214-219 | a clone is a new open end exactly when the end cloned is open |
| `ChannelOutcomes.CloneRecvOutcome` | localpost/threadtools/_channel.py:298-303 | the same for receiving ends |
| `ChannelOutcomes.CloseOutcome` | localpost/threadtools/_channel.py:278-286 | a close takes one end away and nothing else; the first close of an end wakes everyone |
| `ChannelOutcomes.LastEndWakes` | localpost/threadtools/_channel.py:278-355 | no receiver is left blocked without senders, no sender without receivers |
| `ChannelOutcomes.ItemsMoveOneByOne` | localpost/threadtools/_channel.py:222-344 | over any step: items go in through a `put` of that item only and come out through a `get` only, one at a time |
| `SelectorObject.Selector.Accept` | localpost/http/_base.py:733-741 | an acceptor builds a connection it alone drives |
| `SelectorObject.Selector.RaiseFlag` | localpost/http/_base.py:857-863 | `track`: the flag goes up, and an op is owed, exactly when it was down |
| `SelectorObject.Selector.RaiseFlagAlways` | localpost/http/_base.py:899-901 | `post_track`: the flag goes up and an op is owed, whatever the flag was |
| `SelectorObject.Selector.Enqueue` | localpost/http/_base.py:888-901 | the op joins the end of the queue |
| `SelectorObject.Selector.Wake` | localpost/http/_base.py:923-934 | one byte goes into the pipe unless it is full |
| `SelectorObject.Selector.CloseBorrowed` | localpost/http/_base.py:563-591 | a driver closes its connection: it is live no more |
| `SelectorObject.Selector.DrainWakeup` | localpost/http/_base.py:936-941 | the pipe is emptied before any op is looked at |
| `SelectorObject.Selector.ApplyTrack` | localpost/http/_base.py:970-991 | an open connection is in the selector map afterwards; a closed one loses its flag |
| `SelectorObject.Selector.ApplyNext` | localpost/http/_base.py:943-968 | the oldest op is popped and applied |
| `SelectorObject.Selector.DrainOps` | localpost/http/_base.py:943-968 | the loop applies every queued op, in order, and leaves the queue empty |
| `SelectorObject.Selector.Unregister` | localpost/http/_base.py:866-886 | first half of `stop_tracking`: out of the selector map while the flag is still up |
| `SelectorObject.Selector.LowerFlag` | localpost/http/_base.py:866-886 | second half: the flag goes down and the connection is in the hands of this thread |
| `SelectorObject.Selector.LoopPass` | localpost/http/server_httptools.py:307-340 | one turn of the read loop: stop when the flag is down; close or go on when the message is complete; else stop, close, or feed the parser, by what `recv` gave |
| `SelectorObject.Selector.AcceptHere` | localpost/http/_base.py:710-712 | accepting on the selector thread: flag, map and registration in one go |
| `SelectorProofs.GiveBackKeeps` | localpost/http/_base.py:825-901 | raising the flag keeps ownership |
| `SelectorProofs.AppendKeeps` | localpost/http/_base.py:888-901 | appending an op before waking keeps the wake-up invariant |
| `SelectorProofs.ReadPipeKeeps` | localpost/http/_base.py:936-968 | draining the pipe before the ops keeps the wake-up invariant |
| `SelectorProofs.PopKeeps` | localpost/http/_base.py:970-991 | applying an op keeps every tracked connection heard |
| `SelectorProofs.LowerFlagKeeps` | localpost/http/_base.py:866-886 | lowering the flag makes this thread the one owner |
| `SelectorProofs.SubmitKeeps` | localpost/http/_pool.py:55-70 | handing a connection to the pool moves ownership to one worker |
| `SelectorProofs.FedKeeps` | localpost/http/server_httptools.py:288-305 | a deferred dispatch happens after the parser has returned |
| `SelectorProofs.ActionKeeps` | localpost/http/_base.py:825-991 | all of this survives every step of the selector thread and of any other thread |
| `SelectorProofs.RunKeeps` | localpost/http/_base.py:1023-1044 | and so holds along every interleaving |
| `SelectorProofs.OneDriver` | localpost/http/server_httptools.py:307-340 | a connection and its parser are driven by at most one thread, and no worker is even submitted for it while the selector is inside its parser |
| `SelectorProofs.UntrackedMeansOneOwner` | localpost/http/_pool.py:55-105 | a live connection is untracked if and only if somebody owns it, and then exactly one does |
| `SelectorProofs.TrackedIsListenedTo` | localpost/http/_base.py:825-901 | a tracked connection is live, and registered, queued for registration, about to be queued, or being stopped |
| `SelectorRegistration.ActionBooks` | localpost/http/_base.py:825-991 | every step keeps the books of what is registered and what is due |
| `SelectorRegistration.TrackedUnregisteredExactlyWhen` | localpost/http/_base.py:543-545 | a tracked connection is not in the selector map if and only if it was not registered inline and every `OpTrack` due to it is still outstanding; it is then being stopped or one of those is queued or announced |
| `SelectorRegistration.BorrowedRegisteredExactlyWhen` | localpost/http/_base.py:543-545 | a borrowed connection is in the selector map if and only if fewer `OpTrack`s are outstanding than were due to it |
| `SelectorRegistration.DueWhenLowered` | localpost/http/_base.py:866-886 | what is due when the flag is lowered is what is outstanding then |
| `SelectorRegistration.DueWhileBorrowed` | localpost/http/_base.py:825-901 | and no step changes that while the connection is borrowed |
| `SelectorRegistration.BorrowedRegisteredSince` | localpost/http/_base.py:866-886 | over any run from the lowering of the flag on, as long as it stays down: the connection is in the selector map if and only if one of the `OpTrack`s queued or announced when it was lowered has been applied since |
| `SelectorRegistration.TrackedRegisteredSince` | localpost/http/_base.py:857-901 | the same from the raising of the flag over a connection outside the map, as long as the flag is up and the connection is not being stopped |
| `SelectorRegistration.TrackedButUnregistered` | localpost/http/_base.py:859-864 | a reachable state with a tracked connection outside the selector map |
| `SelectorRegistration.BorrowedButRegistered` | localpost/http/_base.py:970-991 | a reachable state with a connection in the selector map that a worker is driving |
| `SelectorProofs.NoLostOp` | localpost/http/_base.py:923-968 | asleep in `select` with ops queued: a byte is in the pipe or a producer is between append and wake |
| `SelectorProofs.OpsInOrder` | localpost/http/_base.py:943-968 | over any further run, appends in the middle of a drain included: the ops queued now are applied in the order posted, each once, behind those applied and before any later one; and all of them, with all appended meanwhile, when the selector leaves `_drain_ops` |
| `SelectorProofs.AtRestEveryoneListens` | localpost/http/_base.py:1023-1044 | when nothing is under way, every live connection is tracked and registered |
| `SelectorOutcomes.TurnOutcome` | localpost/http/server_httptools.py:307-340 | one turn of the read loop: when `recv` would block the connection stays as it is and the selector turns to other events; when the peer is gone, or the answer of a complete message said so, it is closed, untracked and out of the map; else it is read on |
| `SelectorOutcomes.FeedOutcome` | localpost/http/server_httptools.py:288-305 | when the parser returns: malformed input closes, a deferred dispatch unregisters, else the loop goes on |
| `SelectorOutcomes.ClosedExactlyWhen` | localpost/http/_base.py:563-591 | over any step, a connection ceases to be open if and only if the peer is gone, its last answer said so, its input is malformed, or its own driver closes it |
| `SelectorOutcomes.OpenedExactlyWhen` | localpost/http/_base.py:703-741 | connections are built by accepting only, one at a time |
| `SelectorOutcomes.FlagRisesExactlyWhen` | localpost/http/_base.py:857-901 | its flag goes up if and only if it is accepted on the selector thread or given back by its driver |
| `SelectorOutcomes.FlagFallsExactlyWhen` | localpost/http/_base.py:866-886 | its flag goes down if and only if the selector closes it or stops to track it |
| `SelectorOutcomes.EntersMapExactlyWhen` | localpost/http/_base.py:970-991 | it enters the selector map if and only if it is accepted there or an op for it is applied while it is open |
| `SelectorOutcomes.LeavesMapExactlyWhen` | localpost/http/_base.py:866-886 | it leaves the map if and only if the selector closes it or dispatches from it |
| `SelectorOutcomes.BorrowedExactlyWhen` | localpost/http/_pool.py:55-70 | a thread comes to hold a connection if and only if it has accepted it or is given it in a dispatch |
| `SelectorOutcomes.ReturnedExactlyWhen` | localpost/http/_pool.py:72-105 | and ceases to if and only if it closes it or gives it back |
| `SelectorOutcomes.QueueOutcome` | localpost/http/_base.py:888-968 | the op queue grows by exactly the op its producer has announced and shrinks by its oldest op |
| `SelectorOutcomes.OpOutcome` | localpost/http/_base.py:970-991 | the op of an open connection puts it into the map, the op of a closed one leaves it out and untracked |
| `SelectorOutcomes.PipeOutcome` | localpost/http/_base.py:923-941 | over any step: the pipe gains one byte when a producer wakes the selector, unless it is full, and is emptied when it is read |
| `SelectorOutcomes.CallOutcome` | localpost/http/_base.py:1023-1044 | a callback is called once for an event, with the other events still to serve |
| `SelectorOutcomes.ByteIsRead` | localpost/http/_base.py:936-941 | over any run: a byte that is in the pipe when `select` returns is read before the selector can sleep again |
| `SelectorOutcomes.EventIsServed` | localpost/http/_base.py:1023-1044 | over any run: a socket that `select` reports has its callback called before the selector can sleep again |
| `WorkerPoolObject.WorkerExecutor.Submit` | localpost/threadtools/_executor.py:120-136 | refused unless open; otherwise the task is queued last, a worker is spawned when none is idle, and one waiter is notified |
| `WorkerPoolObject.WorkerExecutor.MarkClosed` | localpost/threadtools/_executor.py:150-159 | the first call closes and wakes everyone; later ones do nothing |
| `WorkerPoolObject.WorkerExecutor.Arrive` | localpost/threadtools/_executor.py:164-174 | a worker takes the oldest task, waits, or leaves when closed and drained |
| `WorkerPoolObject.WorkerExecutor.Wake` | localpost/threadtools/_executor.py:164-174 | a woken worker re-checks before it takes, waits or leaves |
| `WorkerPoolObject.WorkerExecutor.SpawnWorker` | localpost/threadtools/_executor.py:214-223 | one more worker, numbered next |
| `WorkerPoolProofs.SubmitKeeps` | localpost/threadtools/_executor.py:120-136 | submitting keeps the invariant |
| `WorkerPoolProofs.ProceedKeeps` | localpost/threadtools/_executor.py:164-174 | taking or leaving keeps the invariant |
| `WorkerPoolProofs.ActionKeeps` | localpost/threadtools/_executor.py:120-212 | every step keeps the invariant |
| `WorkerPoolProofs.RunKeeps` | localpost/threadtools/_executor.py:120-212 | and every run |
| `WorkerPoolProofs.FifoExactlyOnce` | localpost/threadtools/_executor.py:120-136 | tasks accepted are tasks dequeued followed by the queue, none dequeued twice |
| `WorkerPoolProofs.NoLostWakeups` | localpost/threadtools/_executor.py:120-174 | while a worker is blocked un-notified, notified workers number at least the queued tasks |
| `WorkerPoolProofs.QueueIsServed` | localpost/threadtools/_executor.py:164-174 | a queued task has a worker that is neither blocked nor gone |
| `WorkerPoolProofs.ExitDrains` | localpost/threadtools/_executor.py:203-212 | when `__exit__` has returned, the queue is empty and every accepted task has finished |
| `WorkerPoolProofs.ClosedForGood` | localpost/threadtools/_executor.py:197-212 | and nothing is accepted any more |
| `WorkerPoolOutcomes.SubmitOutcome` | localpost/threadtools/_executor.py:120-136 | `submit` takes a task exactly when the pool is open, new and last; one worker more is started exactly when none waits for tasks, a notified one counted; a blocked worker, if any, is notified |
| `WorkerPoolOutcomes.WorkerOutcome` | localpost/threadtools/_executor.py:164-174 | the section of a worker: it takes the oldest task, waits exactly on an empty queue, leaves exactly when the pool is closed as well |
| `WorkerPoolOutcomes.FinishedExactlyWhen` | localpost/threadtools/_executor.py:164-174 | a task is finished exactly when the worker that runs it is done with it |
| `WorkerPoolBacklog.OneAtATime` | localpost/threadtools/_executor.py:23-27 | with one task outstanding, a queued task always has a free worker |
| `WorkerPoolBacklog.TaskBehindBusyWorker` | localpost/threadtools/_executor.py:120-136 | a reachable state with a task queued behind the only worker, which is busy |
| `WorkerPoolBacklog.BacklogFreeExactlyForOneTask` | localpost/threadtools/_executor.py:23-27 | "no backlog" holds for k outstanding tasks if and only if k <= 1 |
| `TaskGroupObject.Group.Check` | localpost/threadtools/_task_group.py:119-122 | creating a task is refused unless the group is open and not closed |
| `TaskGroupObject.Group.List` | localpost/threadtools/_task_group.py:123-127 | the future is appended to the list |
| `TaskGroupObject.Group.OnDone` | localpost/threadtools/_task_group.py:130-139 | a success is removed from the list, a failure or cancellation stays |
| `TaskGroupObject.Group.Drain` | localpost/threadtools/_task_group.py:61-78 | the pending futures are a snapshot of the listed ones that are not done; the loop ends when there are none |
| `TaskGroupObject.Group.Close` | localpost/threadtools/_task_group.py:79-92 | the group closes and collects what it raises |
| `TaskGroupObject.Removed` | localpost/threadtools/_task_group.py:130-139 | `list.remove`, nothing when the element is missing |
| `TaskGroupObject.NotDone` | localpost/threadtools/_task_group.py:66-74 | the loop finds exactly the listed futures that are not done |
| `TaskGroupObject.Collect` | localpost/threadtools/_task_group.py:79-92 | the loop finds the exceptions of the failed futures, in list order |
| `TaskGroupProofs.UnfinishedAncestor` | localpost/threadtools/_task_group.py:61-78 | as long as any task is unfinished, listed or not, some listed future is pending |
| `TaskGroupProofs.DrainKeeps` | localpost/threadtools/_task_group.py:61-78 | the snapshot of the drain loop keeps the invariant |
| `TaskGroupProofs.OnDoneKeeps` | localpost/threadtools/_task_group.py:130-139 | forgetting a success keeps the invariant |
| `TaskGroupProofs.ActionKeeps` | localpost/threadtools/_task_group.py:55-139 | every step keeps the invariant |
| `TaskGroupProofs.RunKeeps` | localpost/threadtools/_task_group.py:55-139 | and every run |
| `TaskGroupProofs.ExitWaitsForEveryTask` | localpost/threadtools/_task_group.py:61-78 | once the drain loop is left, every task ever created is done and was listed once, recursively spawned ones included |
| `TaskGroupProofs.NothingStartsAfterExit` | localpost/threadtools/_task_group.py:119-128 | and no later step creates a task or changes one |
| `TaskGroupProofs.RaisesExactlyTheFailures` | localpost/threadtools/_task_group.py:79-92 | what is raised: one exception for each failed task in listing order, after the body exception unless that is one of them; nothing if and only if nothing failed |
| `TaskGroupOutcomes.RaisedPlaceByPlace` | localpost/threadtools/_task_group.py:79-92 | one exception for each failed task, and one more if and only if the body has raised one that no task has: that one stands first, and behind it the exception of each failed task stands where as many failed tasks were listed before it |
| `TaskGroupOutcomes.BodyExcStays` | localpost/threadtools/_task_group.py:61-92 | the exception of the body is the one it ended with, from then on |
| `TaskGroupOutcomes.StatusExactlyWhen` | localpost/threadtools/_task_group.py:111-138 | over any step: a future starts once, and ends in the way its task ended, or cancelled before it has started |
| `TaskGroupOutcomes.ComesToBeExactlyWhen` | localpost/threadtools/_task_group.py:119-128 | a future comes into being, queued, if and only if its task is submitted |
| `TaskGroupOutcomes.CreatesExactlyWhen` | localpost/threadtools/_task_group.py:119-123 | `create_task` goes ahead if and only if the group has been entered and not closed |
| `TaskGroupOutcomes.ListedExactlyWhen` | localpost/threadtools/_task_group.py:125-126 | a future enters the list if and only if the call that has submitted it lists it |
| `TaskGroupOutcomes.ForgottenExactlyWhen` | localpost/threadtools/_task_group.py:130-138 | a future leaves the list if and only if its callback runs after a success |
| `TaskGroupOutcomes.SuccessesAreForgotten` | localpost/threadtools/_task_group.py:126-138 | in every reachable state without a call of `create_task` or a callback under way, no successful future is on the list |
| `TaskGroupOutcomes.DrainOutcome` | localpost/threadtools/_task_group.py:68-75 | the drain loop is left if and only if every listed future is done; else it waits for exactly the others |
| `TaskGroupOrder.ActionLogs` | localpost/threadtools/_task_group.py:61-92 | the log of completions holds every future that is done, once |
| `TaskGroupOrder.RaisedInCompletionOrderExactlyWhen` | localpost/threadtools/_task_group.py:86-89 | raised in the order of completion if, and with distinct exceptions only if, no failed task completed before a failed one listed ahead of it |
| `TaskGroupOrder.RaisedAgainstCompletion` | localpost/threadtools/_task_group.py:86-89 | a run in which the two orders differ |
| `ServiceProviderObject.DefaultServiceProvider.Resolve` | localpost/di/_services.py:70-89 | the method computes the resolution function on the chain of providers |
| `ServiceProviderObject.DefaultServiceProvider.Enter` | localpost/di/_services.py:82-89 | the instance goes on the exit stack and into the services of its own scope |
| `ServiceProviderObject.DefaultServiceProvider.ResolveAll` | localpost/di/_services.py:174-204 | the dependencies are resolved in order through the provider of the factory |
| `ServicesProofs.ResolveMeans` | localpost/di/_services.py:70-97 | resolving yields what the type denotes without any cache, and loses no cache entry |
| `ServicesProofs.ResolveAllMeans` | localpost/di/_services.py:174-192 | the same for the dependencies of a factory |
| `ServicesMeaning.DenoteExactly` | localpost/di/_services.py:70-97 | what a type denotes: the first provider outwards that knows it answers with itself, its scope, or an instance made at that level from exactly what the dependencies denote at that level, in order; the first dependency that cannot be had is the error, and a type nobody knows is not registered |
| `ServicesProofs.DenoteIsWellScoped` | localpost/di/_services.py:82-89 | what a type denotes depends on no scope further in |
| `ServicesProofs.InsertKeeps` | localpost/di/_services.py:82-89 | entering an instance keeps the cache true and the stacks grounded |
| `ServicesOnce.ResolveOnce` | localpost/di/_services.py:76-88 | when no factory that can run makes falsy instances, a scope never makes a service twice |
| `ServicesOnce.ResolveAgain` | localpost/di/_services.py:76-88 | resolving again makes nothing, but hands out the instance there is, if and only if the type is registered as truthy where it is registered; otherwise one more is made in the same way |
| `ServicesGuarantees.ResolutionIsCacheFree` | localpost/di/_services.py:70-89 | at any point of any run, resolving gives what the scope chain denotes and only adds cache entries |
| `ServicesGuarantees.OuterNeverSeesInner` | localpost/di/_services.py:180-204 | an instance kept by a scope depends on nothing from a scope further in |
| `ServicesGuarantees.DependenciesOutlive` | localpost/di/_services.py:82-89 | whatever an instance was made from is cleaned up after it, within a scope and across scopes |
| `ServicesGuarantees.TeardownOrder` | localpost/di/_services.py:100-107 | this holds at every point of every run |
| `ServicesOnce.OncePerScopeExactlyWhen` | localpost/di/_services.py:76-88 | in every run each scope makes each service at most once, if and only if no factory that can run is registered as making falsy instances |
| `ServicesOnce.AtMostOncePerScope` | localpost/di/_services.py:76-88 | one half of that, state by state |
| `ServicesOnce.FalsyIsMadeTwice` | localpost/di/_services.py:76-88 | the other half: any such factory gives a run in which its service is made twice in one scope |
| `ServicesOnce.FalsyTwice` | localpost/di/_services.py:76-88 | an example: one falsy service resolved twice, two entries on the exit stack |
| `ServicesGuarantees.RunKeeps` | localpost/di/_services.py:100-107 | entering scopes, resolving and leaving scopes keep all of this |
| `ServicesGuarantees.DenoteIgnoresInner` | localpost/di/_services.py:222-249 | scopes entered later do not change what a type denotes further out |
| `UriTemplate.Parse` | localpost/http/router.py:51-68 | the loop over the variables builds the tokens of the template |
| `UriTemplateProofs.TokensSpellText` | localpost/http/router.py:51-68 | the tokens spell the template again: parsing loses nothing |
| `UriTemplateProofs.PrefixOfTokens` | localpost/http/router.py:366-369 | the literal prefix is the text before the first variable, all of it when there is none |
| `RouterAnswers.FindsTheFirst` | localpost/http/router.py:40-60 | the search for variables finds the first brace, name without closing braces, and closing brace; none if and only if there is none |
| `UriTemplateProofs.MatchIffExpansion` | localpost/http/router.py:70-72 | a template matches exactly the paths it expands to with non-empty slash-free values |
| `UriTemplateProofs.MatchExpands` | localpost/http/router.py:70-72 | the bindings of a match are such values, one for each variable, and expand to the path |
| `UriTemplateProofs.ExpansionMatches` | localpost/http/router.py:70-72 | every expansion matches |
| `UriTemplateProofs.MatchIsGreedy` | localpost/http/router.py:70-72 | of all readings of a path the match takes the one with the longest first values |
| `UriTemplateProofs.LiteralMatchesItself` | localpost/http/router.py:70-72 | a template without variables matches its own text only |
| `UriTemplateProofs.ParameterisedIsShort` | localpost/http/router.py:366-369 | a path matched by a template with variables is longer than its literal prefix |
| `Router.Routes.Add` | localpost/http/router.py:145-153 | the builder becomes the table with that method of that template set |
| `RouterProofs.AddRegisters` | localpost/http/router.py:145-153 | `add` registers its handler, leaves all others, and keeps templates distinct |
| `Router.FromRoutes` | localpost/http/router.py:199-236 | duplicates are refused, and nothing else; the rest is sorted, and compiled route by route |
| `RouterProofs.SortIsStable` | localpost/http/router.py:208-214 | the routes are a permutation by non-increasing literal prefix, stable among equal ones |
| `Router.RenamingIsHarmless` | localpost/http/router.py:372-382 | renaming groups changes neither matches nor captures |
| `Router.CombinedMatchesSome` | localpost/http/router.py:222-236 | the combined regex accepts a path if and only if some template does |
| `RouterProofs.GroupNamesAreDistinct` | localpost/http/router.py:219-229 | no two groups of the combined regex share a name, whatever the variables are called |
| `Router.SyncMatch` | localpost/http/router.py:240-286 | behind the prefilter, the answer is that of a plain scan; the assertion fails exactly when several templates match and all their method tables are empty |
| `Router.AsyncMatch` | localpost/openapi/aio/app.py:367-388 | the async dispatcher answers as a plain scan |
| `RouterProofs.NeverStuck` | localpost/http/router.py:286 | without empty method tables the assertion is unreachable |
| `RouterProofs.ChosenIsEarliestLongest` | localpost/http/router.py:208-278 | the route chosen serves the request, has the longest literal prefix of all that do, and was registered first among those; none is chosen only when none serves |
| `RouterProofs.LiteralRoutesWin` | localpost/http/router.py:208-278 | a template without variables that spells the path is always chosen |
| `RouterProofs.AllowedIsUnion` | localpost/http/router.py:254-262 | the allowed methods are the union over the matching templates |
| `RouterProofs.DispatchersAgree` | localpost/openapi/aio/app.py:234-388 | sync and async dispatch agree on 200, 404, 405 and on the Allow value |
| `RouterProofs.SameRouteExactlyWhen` | localpost/openapi/aio/app.py:367-388 | they choose the same route if and only if no route that serves has a longer literal prefix than the one registered first |
| `RouterProofs.ScanIgnoresPriority` | localpost/openapi/aio/app.py:367-388 | an input where they do not: `/{x}` registered before `/a` |
| `RouterProofs.AllowNamesExactly` | localpost/http/router.py:395-396 | the Allow value, split at ", ", names exactly the methods, in alphabetical order |
| `RouterAnswers.BoundInPlace` | localpost/http/router.py:70-72 | with distinct variable names, each variable is given the value that stands in its place |
| `RouterAnswers.ArgumentsSpellPath` | localpost/http/router.py:70-72 | the arguments of a match: one for each variable and no other, non-empty and slash-free, and the template with each variable replaced by its argument is the path |
| `RouterAnswers.AnswerExactlyWhen` | localpost/http/router.py:239-290 | every answer of a scan, which both dispatchers compute: a route exactly when some template takes the request, with its handler and such arguments; 405 exactly when templates match but none has the method, naming the methods of those; 404 exactly when no template matches |
| `Decimal.NumberRoundTrip` | localpost/http/server_httptools.py:57-63 | numbers in print, decimal or hexadecimal, read back |
| `Framing.SerializeResponse` | localpost/http/server_httptools.py:57-70 | the loop writes the status line, a line for each header, and the empty line |
| `Framing.ScanResponseHeaders` | localpost/http/_base.py:119-146 | the one pass finds exactly: a closing Connection field, any framing field, a Transfer-Encoding that mentions chunked |
| `HttpReqCtx.ReqCtx.SendAll` | localpost/http/_base.py:409-444 | the whole payload, or a prefix of it and an error, however the kernel cuts it |
| `HttpReqCtx.ReqCtx.StartResponse` | localpost/http/server_httptools.py:575-604 | the header block is kept back, with framing added when it is missing; body and chunk flags, and the close after the response, follow method, status and headers |
| `HttpReqCtx.ReqCtx.Inform` | localpost/http/server_httptools.py:605-607 | an informational response is written at once |
| `HttpReqCtx.ReqCtx.Send` | localpost/http/server_httptools.py:609-625 | the header block goes out with the first chunk; an empty chunk adds nothing |
| `HttpReqCtx.ReqCtx.FinishResponse` | localpost/http/server_httptools.py:627-636 | headers still kept back go out, then the last chunk |
| `HttpConnection.HTTPConn.Answer` | localpost/http/server_httptools.py:307-322 | one request: the message of its answer goes out, or a prefix of it; the connection stays open exactly when the answer went out whole, has no closing Connection field, and the request was kept alive |
| `HttpConnection.HTTPConn.Loop` | localpost/http/server_httptools.py:307-322 | a sequence of requests: the wire gets the messages up to the first that ends the connection, which is then closed; or a prefix of them, and it is closed too |
| `HttpReqCtx.ReqCtx.Stream` | localpost/http/_base.py:468-494 | the wire gets the message of the response and its chunks, or a prefix of it |
| `HttpReqCtx.ReqCtx.Complete` | localpost/http/server_httptools.py:480-484 | the same for a body in one piece or none |
| `FramingProofs.ReadChunksBack` | localpost/http/server_httptools.py:609-636 | a decoder by section 4.1 of RFC 7230 recovers the data of all chunks, empty ones included, and consumes exactly what was written |
| `FramingProofs.ReadFieldsBack` | localpost/http/server_httptools.py:64-69 | fields whose names are tokens and whose values hold no CRLF read back by section 3.2 of RFC 7230, folding included |
| `FramingProofs.FieldsReadArePlain` | localpost/http/server_httptools.py:64-69 | whatever is on the wire, a client reads only such fields |
| `FramingProofs.ReadStatusBack` | localpost/http/server_httptools.py:57-63 | a status of three digits reads back with the reason behind it; any other status is refused |
| `FramingProofs.FieldsComeBackExactlyWhen` | localpost/http/server_httptools.py:64-69 | the header fields read back if and only if every name is a token and no value holds a CRLF |
| `FramingProofs.PiecesUnframed` | localpost/http/server_httptools.py:73-74 | without chunked framing the body bytes are the chunks in a row; none at all for HEAD, 1xx, 204 and 304 |
| `FramingTheorems.HeadBack` | localpost/http/server_httptools.py:57-70 | a plain header block is read back, and the body is then read from exactly what follows it |
| `FramingTheorems.BadHead` | localpost/http/server_httptools.py:57-70 | a status not of three digits, a name that is no token, or a CRLF in a value or the reason: the header block is never read back |
| `FramingTheorems.NoBodyBack` | localpost/http/server_httptools.py:73-74 | HEAD, 1xx, 204 and 304: no body, and the next message starts right behind the header block |
| `FramingTheorems.ChunksBack` | localpost/http/server_httptools.py:586-604 | framed in chunks: the concatenated chunks come back and nothing more is consumed |
| `FramingTheorems.CountedBack` | localpost/http/server_httptools.py:586-604 | under Content-Length the concatenated chunks come back if and only if every length given is theirs |
| `FramingTheorems.UntilCloseBack` | localpost/http/server_httptools.py:586-604 | under another transfer coding everything up to the end of the connection is body, and without an end there is none |
| `FramingTheorems.BodyMissed` | localpost/http/server_httptools.py:575-636 | a body that cannot be delivered is misread whatever follows but the bare end of a connection that was to stay open |
| `FramingTheorems.ArrivesExactlyWhen` | localpost/http/server_httptools.py:575-636 | for every response, method and chunk sequence and whatever follows: status, reason, fields and body arrive and exactly what follows is left, if and only if the status has three digits, names are tokens, no value or reason holds a CRLF, a body that ends with the connection is not framed in chunks and the connection is closed, and a Content-Length that counts is true |
| `ConnectionTheorems.AllArriveExactlyWhen` | localpost/http/server_httptools.py:307-322 | for every sequence of requests and answers on a connection: a client reads every response that is sent, each with exactly the later ones behind it, if and only if each of them meets the condition above |
| `FramingWitnesses.ChunkLinesAsBody` | localpost/http/_base.py:142-145 | `chunked, gzip`: the client takes the chunk lines for the body |
| `FramingWitnesses.GzipNeverEnds` | localpost/http/server_httptools.py:583-603 | `gzip` on a connection kept alive: no end of the body, and the next bytes are taken for it |
| `FramingWitnesses.LengthDecides` | localpost/http/server_httptools.py:586-604 | the client takes as many bytes as Content-Length says, from the body and from what is sent next |
| `FramingWitnesses.WrongLengthEatsOn` | localpost/http/server_httptools.py:586-604 | an example: length 5 over a body of 2 |
| `FramingWitnesses.HeadMayTellALength` | localpost/http/server_httptools.py:73-74 | a response to HEAD with any Content-Length arrives |
| `FramingWitnesses.CrlfMakesTwoFields` | localpost/http/server_httptools.py:64-69 | one value with a CRLF is read as two fields |
| `FramingWitnesses.BlankNameFolds` | localpost/http/server_httptools.py:64-69 | a name that begins with white space: the client takes the field for a part of the one before |
| `FramingWitnesses.OddStatusIsRefused` | localpost/http/server_httptools.py:57-63 | no client takes a response whose status has not three digits |
| `FramingWitnesses.EmptyElementArrives` | localpost/http/_base.py:142-145 | `chunked,` is `chunked`: an empty element does not count, and the response arrives |
| `FramingWitnesses.CrAloneArrives` | localpost/http/server_httptools.py:64-69 | a CR alone in a value does no harm |
| `FramingProofs.FinalMeansHas` | localpost/http/_base.py:142-145 | a final coding `chunked` is always noticed |
| `FramingProofs.NoBodyAgrees` | localpost/http/server_httptools.py:73-74 | for every method and status the writer leaves the body away exactly where rule 1 of section 3.3.3 of RFC 7230 says there is none |
| `FramingProofs.ScanAgrees` | localpost/http/_base.py:119-146 | for all headers the scan finds a mention of `close`, any framing field and a mention of `chunked` exactly where a client that folds case by itself sees them |
| `FramingTheorems.WriterAgrees` | localpost/http/server_httptools.py:575-604 | closing, framing fields added and reason phrase, in terms of the client |
| `EventStream.EncodeEvent` | localpost/openapi/sse.py:88-105 | the appended lines are those of the specification |
| `EventStream.IterEvents` | localpost/openapi/sse.py:108-121 | one piece for each event, in order |
| `EventStreamProofs.JoinSplit` | localpost/openapi/sse.py:67-85 | splitting at newlines and joining is the identity, and the pieces are lines |
| `EventStreamProofs.OneEventBack` | localpost/openapi/sse.py:88-105 | a parser by HTML section 9.2.6 dispatches one event for one encoded event: same name, data, id, reconnection time; and is idle again |
| `EventStreamProofs.RoundTrip` | localpost/openapi/sse.py:108-121 | decoding a stream gives the events back, ids and reconnection times carried on |
| `EventStreamProofs.TextsArriveExactlyWhen` | localpost/openapi/sse.py:67-85 | the texts arrive if and only if none holds a CR |
| `EventStreamProofs.SeenIsClean` | localpost/openapi/sse.py:88-105 | whatever it reads, a parser hands out no CR, no line break in a name or an id, and no NUL in an id |
| `EventStreamProofs.EventsArriveExactlyWhen` | localpost/openapi/sse.py:88-121 | for comments without CR: name, data, id and reconnection time of every event arrive, and what an event does not have stays as it was, if and only if names and ids are of one line, ids hold no NUL, reconnection times are not negative and data holds no CR |
| `EventStreamProofs.CommentIsRead` | localpost/openapi/sse.py:93-95 | a CR in a comment: what is behind it is read as a field of the event |
| `EventStreamProofs.CommentStandsFirst` | localpost/openapi/sse.py:93-95 | a comment is written in front of the rest of its event, each of its lines as a line of comment |
| `SchemaRegistryObject.SchemaRegistry.SchemaFor` | localpost/openapi/schemas.py:54-70 | the type joins the bucket of its adapter unless it is there; the cached result is dropped |
| `SchemaRegistryObject.SchemaRegistry.Turn` | localpost/openapi/schemas.py:89-98 | one adapter gets exactly the types of its bucket it has not had |
| `SchemaRegistryObject.SchemaRegistry.RunPass` | localpost/openapi/schemas.py:88-98 | one pass over the adapters known when it began, and whether it made progress |
| `SchemaRegistryObject.SchemaRegistry.Components` | localpost/openapi/schemas.py:72-102 | a cached result is returned as it is; otherwise the worklist is drained, and the result kept |
| `Schemas.VisitKeeps` | localpost/openapi/schemas.py:89-98 | every turn keeps the bookkeeping, only adds, and hands out what the bucket still held |
| `Schemas.RegisterKeeps` | localpost/openapi/schemas.py:65-69 | registering adds the type and nothing else |
| `Schemas.ProgressShrinks` | localpost/openapi/schemas.py:87-100 | a pass with progress leaves fewer types to hand out: the loop ends |
| `SchemasProofs.DrainDrains` | localpost/openapi/schemas.py:87-100 | the loop ends with every bucket handed out |
| `SchemasProofs.LeastClosedSet` | localpost/openapi/schemas.py:72-102 | each registered type is handed to its adapter exactly once; in the end the registered types are the least set with the requested ones that is closed under references |
| `SchemasProofs.CachedIsRecomputed` | localpost/openapi/schemas.py:79-80 | when types agree about names, a cached result equals computing it again |
| `SchemasProofs.ReproducibleExactlyWhenConsistent` | localpost/openapi/schemas.py:79-102 | cached results are always reproducible if and only if no two types give one name different schemas |
| `SchemasProofs.ClashShows` | localpost/openapi/schemas.py:97 | any two types that clash give registrations whose cached result differs from the recomputed one |
| `SchemasOrder.AgainInBuckets` | localpost/openapi/schemas.py:79-102 | computing a result again hands out the types bucket by bucket, in one pass |
| `SchemasOrder.SameAgainExactlyWhen` | localpost/openapi/schemas.py:79-102 | for any given registrations: the cached result equals computing it again if and only if, for each name, the last type discovered and the last type in the buckets give it the same schema |
| `RequestBody.RequestCtx.StreamReceive` | localpost/http/asgi.py:322-361 | the pump hands on non-empty bodies only, up to the first final event or disconnect |
| `RequestBody.RequestCtx.Receive` | localpost/http/asgi.py:202-221 | a piece of at most the size asked for, nothing lost; empty only at the end, or when no bytes were asked for |
| `RequestBody.RequestCtx.ReadBody` | localpost/http/_body.py:53-66 | the whole body if and only if it ends within the limit; BodyTooLarge if and only if it is longer, raised within one buffer past the limit; a whole body is complete exactly when its end came before any disconnect |
| `RequestBody.RequestCtx.ReceiveAll` | localpost/http/asgi.py:202-221 | any sequence of sizes: the pieces are the body from its start, none too long, none of positive size empty before the end |
| `RequestBody.DeliveryIsComplete` | localpost/http/asgi.py:335-361 | of a client gone after k pieces, what arrives is the first k; it is all exactly when the missing ones are empty |
| `RequestBody.CutOffLooksWhole` | localpost/http/asgi.py:335-361 | an example: a disconnect in mid-body, and what had arrived is returned as the whole |
| `BodyPump.ActionKeeps` | localpost/http/asgi.py:202-361 | every step of pump or handler keeps the account of what was read, is held, and is still to come |
| `BodyPump.EverythingIsRead` | localpost/http/asgi.py:202-361 | however pump and handler interleave and whatever sizes are asked for: what was read is the start of the body, and all of it at the end unless the pump has failed |
| `BodyPump.PiecesAreFair` | localpost/http/asgi.py:202-221 | in every such run a piece is no longer than asked for, and empty only at the end or when nothing was asked for |
| `BodyPump.DisconnectedExactlyWhen` | localpost/http/asgi.py:335-361 | in every such run the disconnected flag is up if and only if a disconnect has been taken from the server, in the middle of the body or after it |
| `RequestBody.OthersDoNotMatter` | localpost/http/asgi.py:335-361 | events of another type do not matter |
| `RequestBody.NothingAfterTheEnd` | localpost/http/asgi.py:335-361 | what follows the first final event does not matter |
| `RequestBody.CutsDoNotMatter` | localpost/http/asgi.py:335-361 | how the server cuts a body into events does not matter |
| `HostingObject.ServiceLifetime.State` | localpost/hosting/_host.py:225-233 | the state read off the three events |
| `HostingObject.ServiceLifetime.SetStarted` | localpost/hosting/_host.py:235-240 | started, unless already stopped |
| `HostingObject.ServiceLifetime.SetShuttingDown` | localpost/hosting/_host.py:242-249 | the first call gives the reason; none after the stop |
| `HostingObject.ServiceLifetime.Shutdown` | localpost/hosting/_host.py:153-160 | the same from the view, where a late call does nothing |
| `HostingObject.ServiceLifetime.Stop` | localpost/hosting/_host.py:403-410 | exception and stop are recorded together |
| `HostingObject.PropagateShutdown` | localpost/hosting/_host.py:507-510 | every child is told to shut down; afterwards each is at least shutting down |
| `Hosting.ActionKeeps` | localpost/hosting/_host.py:153-410 | every step of any service of the tree keeps the invariant and moves no observed state back |
| `Hosting.RankNeverDecreases` | localpost/hosting/_host.py:225-233 | starting, running, shutting down, stopped: the observed state never goes back |
| `Hosting.ObservedExactly` | localpost/hosting/_host.py:225-249 | what is observed after each step: a live service told it has started is running at least, one told to shut down gives the reason of the first call, a stop shows that reason and its exception; nothing else is observed of any service |
| `Hosting.StartedIsObserved` | localpost/hosting/_host.py:251-259 | a service that is started is observed as starting, below the one that has started it |
| `Hosting.ExceptionIsFinal` | localpost/hosting/_host.py:393-410 | from a stop on, whatever happens, the exception given to it is the one observed |
| `Hosting.ReasonIsFinal` | localpost/hosting/_host.py:153-160 | `shutdown_reason` is assigned at most once, with the event, and never after the stop |
| `Hosting.StoppedIsFinal` | localpost/hosting/_host.py:393-410 | what is observed of a stopped service stays |
| `Hosting.StopsLast` | localpost/hosting/_host.py:393-410 | before a service closes what it deferred or reports a stop, everything below it has stopped, at any depth |
| `Hosting.NothingStartsBelow` | localpost/hosting/_host.py:251-259 | nothing is started below a stopped service |

## Left out

- Liveness of the sender side of a rendezvous with several senders: it fails, as shown; only the safety of a normal return is proved there.
- Channel: negative timeouts, iteration and context-manager sugar; a deadline is a choice, not a clock.
- Selector: the stale sweep, `_OpClose`, shutdown, cancellation, reuse of file descriptors, handlers that raise after completing, and closes by a worker after give-back.
- SelectorObject.Selector.DrainOps: proved without other threads in between, which `SelectorProofs.OpsInOrder` allows; the coalesced sweep is not part of this model.
- Worker pool: failure to start a thread, context variables, and the async variant that runs workers through a portal.
- Task group: tasks created by a thread outside the body and outside the group; the retained future objects.
- Dependency resolution: collecting parameters by reflection, eager creation on scope entry, registries with cycles (the recursion does not end there), and the lock, since every section holds it throughout.
- Router.FromRoutes: does not model that `re.compile` refuses group names that are no identifiers or occur twice in one template.
- Router: newlines in a path, decorators, middleware, and the duplicate check while the async table is built.
- HttpConnection.HTTPConn.Loop: each request is answered by one `complete` or `stream`; an answer that is broken off closes the connection, and the error responses of the read loop are not part of this model.
- Framing: CONNECT, `sendfile`, request parsing, pipelining, and the close that an unanswered `Expect: 100-continue` forces.
- EventStream.EncodeEvent: text only; the JSON encoding of other values and UTF-8 are not part of this model (characters stand for themselves).
- EventStreamProofs.RoundTrip: asks for event names and ids on one line and comments without CR; the code does not check.
- EventStreamProofs.EventsArriveExactlyWhen: asks for comments without CR. What a CR in a comment does depends on the lines behind it and on the fields that come after, and may be nothing.
- Schemas: the fragments `schema_for` returns, `None`, and the lock.
- RequestBody.RequestCtx.StreamReceive: pump and reader in one; apart, and with failures of the pump, they are in `BodyPump`.
- RequestBody.RequestCtx.ReadBody: negative limits, and the early refusal by Content-Length.
- Hosting: portals and threads, context managers around services, exit codes, and which exception AnyIO raises when a scope is cancelled.
- Scheduler, h11 backend, WSGI and RSGI bridges, compression, static files, OpenAPI documents, middleware, authentication.
