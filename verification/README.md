# A verified model of axum-server's shutdown protocol and TLS acceptors

axum-server accepts connections, gives each one a task, and stops in two ways: `shutdown()` drops
everything, `graceful_shutdown(d)` stops accepting, tells every connection to finish, and waits up to
`d`. What ties these together is a handful of atomics, one-shot latches, a connection counter and
`select!`s whose branches are polled in order. This project models that protocol one atomic operation
at a time, with any number of connections, callers and interleavings, and proves what it promises. It
also models the TLS acceptor futures, the hot-reloadable config, and the loop that picks the key out
of a key file.

## How it is built

- `latch.dfy`, `notify_once.dfy`: `NotifyOnce` with its store, broadcast, registration, load and wait
  as separate operations, shown to refine a two-bit latch. `Latch.Seen` is what one poll answers: the
  first poll of a waiter reads the flag, later ones see only the broadcast. The rest of the model uses
  that latch.
- `handle.dfy`: `HandleInner` as a class, and runs of a task under arbitrary interference.
- `connection.dfy`, `serve.dfy`: the connection task and `serve` as functions that make one atomic
  operation (`Connection.Task`, `ServeModel.ServeStep`).
- `selects.dfy`: the connection task as the source's four `select!`s, a list of branches each, shown to be
  what those operations do.
- `connection_task.dfy`, `serve_task.dfy`: the task and `serve` as classes written like the source, a method
  per `select!` or loop. A poll of the object is proved to be a run of those functions, with other
  threads free to change the shared state before each operation.
- `system.dfy`: the whole server. An action is one operation of one task or of `serve`, a tick of the
  clock, or one operation of a user's call. `START`, `ValidRun` and `Exec` give all its runs.
- `projection.dfy`: every run of the server, seen from one task or from `serve`, is a run of that one
  alone, so what is proved of a task or of `serve` under interference holds in the server.
- `calls.dfy`: the calls of a handle as runs of the server.
- `drain.dfy`, `shutdown.dfy`, `conservation.dfy`, `reasons.dfy`, `request_timer.dfy`: the theorems about
  all runs.
- `first_request.dfy`, `listening.dfy`, `key_file.dfy`: the first-request signal, the publication of
  the bound address, the key loop.
- `tls_layer.dfy`, `tls_rustls.dfy`, `tls_openssl.dfy`, `tls_nested.dfy`, `tls_reload.dfy`: one TLS
  acceptor future and the sequential program it stands for, its two implementations, stacks of them,
  and reloads.

Run `dafny verify dfyconfig.toml` to check the project.

## Where the code does not keep a promise as stated

- **A drained server may return over a live connection.** `Watcher::drop` subtracts and then looks at
  the graceful flag (src/handle.rs:147-149). A dropper that takes the count to zero can be overtaken
  there by a new connection and a call of `graceful_shutdown`, and then latches `conn_end` with that
  connection in flight, by which `serve` returns `Ok`. `Drain.UnsoundRunExists` builds such a run, up to
  the return, for every configuration. `Drain.DrainSoundnessIsExact` shows that `conn_end` can latch over
  a connection in flight exactly when, at the instant the flag is stored, such a dropper and a connection
  in flight both exist; `Drain.DrainedReturnIsExact` shows that `serve` can return by it exactly when
  moreover it can still leave its accept loop, that is, it has not returned and need not first look at a
  `shutdown()` that is up.
- **A request dispatched in time may be cut off by the first-request timeout.** The timer is polled
  before the signal (src/server.rs:451-452). `RequestTimer.DispatchedYetTimedOut` builds the run for
  every timeout; `Connection.DispatchedRequestIsSavedIff` gives the exact condition on the next poll.

## Assumptions

- A broadcast of `Notify` wakes every waiter registered before it, and nobody else. The comment at
  src/notify_once.rs:22-24 says that registration happens on the first poll or `enable`; the model only
  needs it to happen somewhere in lines 25-26, before the load.
- Atomics are sequentially consistent, as the source asks for everywhere.
- Acceptor, hyper, listener, make-service, handshake and leaf futures answer arbitrarily. `timeout`
  polls its future before its timer. Clocks are natural numbers of milliseconds that never go back;
  for the time bound of nested acceptors the clock stands still within one poll.
- A sleep is ready at every poll at or after its deadline and at no poll before it. A timer is created
  in one instant with the operation before it: the grace timer with the read under the lock, the
  first-request timer with the acceptor's completion, the pause with the listener's error.
- One `serve` per handle. A task may panic or be aborted at any operation of its body.
- Progress is stated as "when this task is polled again". One poll of `serve` meets finitely many ready
  connections (parameter `quiet` of `ServeTask.ServeTask.Poll`), which tokio's budget ensures.

## Model

| member | source | states |
|---|---|---|
| NotifyOnceModel.RefinesLatch | src/notify_once.rs:11-31 | every interleaving of any notifiers and waiters is a run of a one-way latch that releases waiters only once stored and never lets a poll park once broadcast |
| NotifyOnceModel.SourceOrderKeepsWakeUps | src/notify_once.rs:11-31 | no waiter completes before a store, and after a call of `notify_waiters` has finished no waiter stays parked |
| NotifyOnceModel.ReversedOrderSticks | src/notify_once.rs:11-31 | broadcasting before storing, or loading before registering, admits a run that leaves a waiter parked |
| NotifyOnceModel.OrderIsExact | src/notify_once.rs:11-31 | wake-ups are never lost if and only if both sides keep the source's order |
| NotifyOnceModel.FirstPollReadsTheFlag | src/notify_once.rs:21-31 | whatever runs in between, a first poll answers what the flag is at one instant of the poll |
| NotifyOnceModel.LaterPollReadsTheBroadcast | src/notify_once.rs:28-30 | a later poll completes exactly when some broadcast is over; it does not load the flag |
| NotifyOnceModel.NotifyOnce.NotifyWaiters | src/notify_once.rs:11-15 | under interference the call makes the two operations in order, and the latch is finished when it returns |
| NotifyOnceModel.NotifyOnce.IsNotified | src/notify_once.rs:17-19 | answers whether some call has stored the flag |
| NotifyOnceModel.NotifyOnce.PollFirst | src/notify_once.rs:21-31 | the first poll registers, loads, and waits only if the flag was down |
| NotifyOnceModel.PolledFirstReadsTheFlag | src/notify_once.rs:21-31 | whatever other threads do in its gaps, that poll completes only with the flag up, parks only if the flag was down at its start and no broadcast is over, does one of the two, and completes if a broadcast comes between its load and its look at the inner future |
| NotifyOnceModel.NotifyOnce.PollAgain | src/notify_once.rs:28-30 | a later poll completes exactly when its waiter has been woken |
| HandleModel.Handle.constructor | src/handle.rs:37-49 | a new handle has no connections, closed latches and no grace period |
| HandleModel.Handle.ConnectionCount | src/handle.rs:58-60 | returns the count |
| HandleModel.Handle.Shutdown | src/handle.rs:63-65 | stores and broadcasts the shutdown latch and touches nothing else, whatever runs in between |
| HandleModel.Handle.GracefulShutdown | src/handle.rs:70-74 | writes the duration, then stores, then broadcasts |
| HandleModel.Handle.NewWatcher | src/handle.rs:130-134 | adds exactly one to the count |
| HandleModel.Handle.DropWatcher | src/handle.rs:145-153 | ends after at most four operations, each after arbitrary interference, and not before |
| HandleModel.ReturnedCallsAreFinished | src/handle.rs:63-74 | a call that has returned has finished its latch; the grace period of a `graceful_shutdown` call is there when its latch is stored and when it returns, whatever others do in between |
| HandleModel.GracefulAlone | src/handle.rs:70-74 | undisturbed, `graceful_shutdown(d)` makes d the grace period, finishes the latch and touches nothing else |
| Calls.GracefulCallIsRun | src/handle.rs:70-74 | whatever the server does in its gaps, a `graceful_shutdown(d)` call is a run of the server's own actions: the duration, the store, the broadcast; d is in force before the latch changes |
| Calls.ShutdownCallIsRun | src/handle.rs:63-65 | likewise `shutdown()` is the store and the broadcast, and the latch is finished at its end |
| HandleModel.LastDropLatches | src/handle.rs:145-153 | with the flag up, the dropper that reaches zero always finishes `conn_end`, and every other stops after its subtraction |
| Connection.NoUseAfterCompletionEver | src/server.rs:439-476 | at every operation of every run no completed future is polled, and the task's body ends with the operation in which hyper's future completes |
| Connection.TaskConforms | src/server.rs:402-477 | every operation keeps the agreement between a task's stage and what it has done |
| Connection.GracefulReachesHyperFirst | src/server.rs:405-473 | in any poll that starts after `graceful_shutdown()` has returned, hyper's future is polled only after its own `graceful_shutdown`, called once, and the acceptor never |
| Connection.HyperIsToldBeforeTheDrop | src/server.rs:461-473 | a serving task that finds both latches up asks hyper to stop before it is dropped |
| Connection.ShutdownShrinks | src/server.rs:402-477 | after `shutdown()` every operation of a task, whatever its phase and its futures' answers, brings it nearer to its end, at most ten away |
| Connection.ShutdownEndsInOnePoll | src/server.rs:405-475 | one poll after `shutdown()` has returned reaches the watcher's drop within two operations and finishes it |
| Connection.TimerIsExact | src/server.rs:444-459 | a poll that reaches the first-request `select!`, also the one that enters it, closes the connection by the timer exactly when neither latch is seen and the timer is due |
| Connection.DispatchedRequestIsSavedIff | src/server.rs:447-458 | after the signal is sent, and no latch seen, a poll that comes to the timer before the deadline goes on to the serve `select!` with the body still running; one that comes later is closed by the timer |
| Connection.SenderGoneCloses | src/server.rs:452-456 | when hyper has dropped the service without a request, such a poll ends the task, and by that reason if the timer is not due |
| Connection.TimerIsOver | src/server.rs:447-476 | once past the first-request stage the timer never closes the connection; closed by it, it stays so |
| Selects.BranchStep | src/server.rs:405-475 | each operation of the task polls one branch of one of four biased `select!`s, given as lists of branches in the source's order; a ready branch does what the source says, a pending one leads to the next, and the last one to parking |
| Selects.FirstReadyDecides | src/server.rs:405-475 | the first ready branch of a `select!`, each read at its own moment, decides what the task does, and no later branch is polled |
| Selects.PollIsItsSelects | src/server.rs:405-475 | every poll is a chain of such `select!`s; it ends with the task parked, the acceptor's or hyper's future and all other branches having been polled in vain, or with the body returned by the first ready branch |
| Reasons.WhyTheTaskEnded | src/server.rs:405-475 | in every run, told from the answers of its futures and the latches: a task's body is over because its acceptor failed, hyper's future was ready, or it was unwound, each if and only if that happened, or because a latch that ends it was up, the timer was due since the acceptor's answer, or hyper dropped the service unused; after the request is seen or hyper is told to stop only `shutdown()`, hyper and a panic are left |
| ConnectionTask.ConnectionTask.constructor | src/server.rs:402-402 | a spawned task has run nothing |
| ConnectionTask.ConnectionTask.PollGate | src/server.rs:405-410 | polls shutdown, graceful and acceptor in that order and leaves by the first that is ready |
| ConnectionTask.ConnectionTask.PollAcceptor | src/server.rs:409-431 | a failed accept is reported and ends the task; a successful one starts the first-request timer, if there is one |
| ConnectionTask.ConnectionTask.PollFirst | src/server.rs:444-459 | polls shutdown, graceful, timer, signal and hyper in that order |
| ConnectionTask.ConnectionTask.PollServe | src/server.rs:461-476 | polls graceful, shutdown and hyper in that order; graceful calls hyper's `graceful_shutdown` |
| ConnectionTask.ConnectionTask.PollDrain | src/server.rs:468-472 | polls shutdown and hyper in that order |
| ConnectionTask.ConnectionTask.Drop | src/server.rs:402-477 | when the body has returned the watcher is dropped in the same poll |
| ConnectionTask.ConnectionTask.Poll | src/server.rs:402-477 | one poll, from any suspension point and under any interference, is the run of atomic operations up to the next rest, and ends in a conforming state |
| ServeModel.ThePauseHolds | src/server.rs:518-526 | from a listener error on, which is counted once and reported if there is a handler, the listener is not polled for 50 ms, in this or any later poll |
| ServeModel.ThePauseEnds | src/server.rs:518-526 | at the first look at the clock 50 ms or more after the error the listener is asked again, and at no look before |
| ServeModel.DeadlineIsExact | src/handle.rs:114-119 | a poll that looks at the timer, the one that enters the wait included, shuts down and returns if it is due, whatever `conn_end` says; if not, it returns exactly when `conn_end` is seen, and else waits on under the same deadline |
| ServeModel.GracefulLeavesTheLoop | src/server.rs:375-379 | after `graceful_shutdown()` the loop is left at any poll of `accept` that ends pending, also in the pause after an error, while a ready connection is still taken |
| ServeModel.ShutdownStopsTheLoop | src/server.rs:481-485 | a poll after `shutdown()` ends the accept loop wherever it is suspended |
| ServeModel.ServeParksOnPending | src/server.rs:373-485 | a poll of `serve` parks only after finding pending what it then waits for: the bind, the listener and the graceful latch, `poll_ready`, `make_service`, or the timer and `conn_end` |
| ServeModel.ParksIffPending | src/server.rs:373-485 | an operation of `serve` lets it rest without a result if and only if it finds the last future of its `select!` pending, and the next poll resumes there, with waiters that have been polled |
| ServeModel.NextRoundSeesTheFlag | src/server.rs:373-395 | after a task is spawned or the make-service has failed the listener is asked again, and if it is pending a graceful flag that is only stored is seen by the new waiter |
| ServeTask.ServeTask.constructor | src/server.rs:347-361 | a new `serve` has not bound its listener |
| ServeTask.ServeTask.PollAccept | src/server.rs:511-529 | one poll of `accept`: retries through reported errors and pauses until a stream or nothing more |
| ServeTask.ServeTask.PollSelect | src/server.rs:375-379 | the listener is polled before the graceful latch |
| ServeTask.ServeTask.PollReady | src/server.rs:381-383 | an error of `poll_ready` ends `serve` with it |
| ServeTask.ServeTask.PollMake | src/server.rs:386-402 | a failed service is reported and the loop goes on; a watcher is created exactly when there is a service |
| ServeTask.ServeTask.PollLoop | src/server.rs:373-479 | the accept loop, resumed where it was suspended |
| ServeTask.ServeTask.PollWait | src/handle.rs:114-121 | the timer is polled before `conn_end` |
| ServeTask.ServeTask.EnterWait | src/handle.rs:107-122 | a zero count returns at once, otherwise the grace period is read and waited under |
| ServeTask.ServeTask.Poll | src/server.rs:347-501 | one poll of `serve` is the run of atomic operations from one suspension point to the next, and terminates |
| System.RunInv | src/server.rs:347-501 | in every run: the count, the order of the latches, the place of `serve` and every task's record agree |
| Projection.ServerRunIsTaskRun | src/server.rs:402-477 | a task's operations in any run of the server, each at the state the server was then in, are a run of the task under interference that only moves forward |
| Projection.ShutdownEndsTheTask | src/server.rs:405-475 | in the whole server, a task that was between polls when `shutdown()` had returned makes at most six more operations in every continuation (without a panic or abort of the task), and is between polls again only when done |
| Projection.ServerRunIsServeRun | src/server.rs:347-501 | the operations of `serve` in any run of the server without its cancellation, each at the state the server was then in, are a run of `serve` alone under interference that only moves forward |
| Projection.ShutdownEndsServe | src/server.rs:481-485 | in the whole server, if `serve` was suspended in its accept loop when `shutdown()` had returned, its next operation is its last |
| Projection.DueInTheServer | src/handle.rs:114-119 | in the whole server, once an operation of `serve` finds its timer due at most two more follow, and it rests only after it has shut the server down and returned |
| Projection.NotDueInTheServer | src/handle.rs:114-121 | in the whole server, after a timer that is not due the next operation of `serve` returns exactly when it sees `conn_end`, and else it waits on |
| Projection.PauseHoldsInTheServer | src/server.rs:518-526 | in the whole server, after a listener error nothing is taken from the listener, and no second error, until 50 ms have passed |
| Projection.GracefulLeavesInTheServer | src/server.rs:375-379 | in the whole server, a poll of `accept` that ends pending after `graceful_shutdown()` is followed by leaving the loop |
| Drain.DrainSoundness | src/handle.rs:107-153 | unless a zero dropper was overtaken, `conn_end` latched, and so a return by it, means that every counted watcher is at its gate or leaving: nothing is in flight |
| Drain.NothingRunsAfterTheEnd | src/server.rs:402-477 | once `conn_end` is latched in such a run, in every continuation no acceptor and no HTTP future is polled |
| Drain.DrainSoundnessIsExact | src/handle.rs:145-153 | from any reachable state, all futures of the first graceful store are sound if and only if there is not both a zero dropper yet to check and a connection in flight |
| Drain.DrainedReturnIsExact | src/handle.rs:107-153 | from any reachable state, some future of the first graceful store has `serve` return through `conn_end` over a connection in flight if and only if there is both a zero dropper yet to check and a connection in flight, and `serve` can still leave its accept loop |
| Drain.UnsoundRunExists | src/handle.rs:145-153 | the breaking run exists for every configuration: `conn_end` latched, `serve` returned by it, a connection in flight |
| Drain.OvertakenDropperBreaks | src/handle.rs:147-151 | two operations of the overtaken dropper latch `conn_end` over a live connection |
| Drain.AtomicDropDrainSoundness | src/handle.rs:145-153 | if each check directly follows its subtraction, drain soundness holds in every run without a condition |
| Drain.DrainNeverHangs | src/handle.rs:107-122 | whenever `serve` waits, `conn_end` is broadcast, a watcher is counted, or a zero dropper is on its way and its flag reads true; a `serve` that did not wait had nobody to wait for |
| Drain.DropperDelivers | src/handle.rs:147-151 | each operation of such a dropper comes nearer to the broadcast, and the last one is the broadcast |
| Shutdown.WorkRunsOut | src/server.rs:402-485 | after `shutdown()`, in every schedule, each operation of a task uses up work that is never replaced, a new task brings at most ten units of it, and once `serve` is outside its loop there are no new tasks |
| Shutdown.EachTaskRunsOut | src/server.rs:402-477 | after `shutdown()` the operations of each single task, unwinding included, and the work it has left never exceed what it had, at most ten |
| Shutdown.ServeEndsInOnePoll | src/server.rs:481-500 | with every task gone the next poll of `serve` returns `Ok`, also from `wait_connections_end`, which does not listen for shutdown |
| Shutdown.ShutdownEndsEverything | src/server.rs:402-500 | from any reachable state after `shutdown()`, `serve` in mid-poll or not: in any schedule each task, one spawned later included, makes at most ten operations, no task is new once `serve` is outside its accept loop, and when all tasks are done one poll of `serve` returns `Ok` |
| Shutdown.DrainCompletes | src/server.rs:498-500 | once the last task of a graceful shutdown is gone the next poll of `serve` returns `Ok` |
| Shutdown.GracefulReachesEveryTask | src/server.rs:405-473 | in every run after `graceful_shutdown()` a task that was between polls polls hyper only after telling it to stop, once, and never its acceptor |
| Shutdown.OutOfTimeShutsDown | src/handle.rs:112-119 | from the operation that reads the grace period d at time t, in every continuation: the deadline stays t + d, a return at the deadline comes no earlier and with a finished shutdown, no other return is possible but through `conn_end` or by cancellation, and without a grace period there is no timer |
| Shutdown.ReturnsMean | src/handle.rs:107-122 | in every run a return by the deadline implies a finished shutdown, one through `conn_end` that it is latched after a graceful stop, and one from the accept loop's `select!` that `shutdown()` was called |
| Shutdown.GraceIsTheLatest | src/handle.rs:70-74 | the grace period read was written by some call, the latest by lock order, never the unset default |
| Conservation.CountIsExact | src/handle.rs:130-148 | the count is the number of watchers not yet subtracted, and the subtraction never underflows |
| Conservation.SubtractedOnce | src/handle.rs:145-148 | a watcher is subtracted at most once |
| Conservation.CountNeverRises | src/server.rs:373-498 | after the accept loop ends no watcher is created and the count never rises |
| Conservation.NothingIsLost | src/server.rs:373-420 | accepted streams are watchers, make-service failures and at most one held or lost; reports are listener, make-service and acceptor failures and nothing else |
| Conservation.EveryErrorIsReported | src/server.rs:373-420 | in every run the handler has been called once for each error that the listener, the make-service and the acceptors answered, counted from the answers alone; and the streams given by the listener are the tasks, the make-service errors and at most one held |
| Conservation.ErrorsReturned | src/server.rs:356-383 | `serve` returns the bind error or the `poll_ready` error exactly when there was one, and no other answer makes it return an error |
| RequestTimer.TimedOutTasksWereDue | src/server.rs:425-459 | in every run a task closed by the timer was due, with no signal, completion or graceful stop seen; no task asks hyper to stop twice |
| RequestTimer.DispatchedYetTimedOut | src/server.rs:447-458 | for every positive timeout some run dispatches a request at once and is closed by the timer |
| FirstRequest.FirstRequestService.Call | src/server.rs:556-564 | a call sends exactly when no clone has been called before |
| FirstRequest.Dispatch | src/server.rs:531-565 | any calls on any clones send exactly one message |
| Listening.EveryCallerGetsThePublishedAddress | src/handle.rs:79-93 | in any schedule every caller gets the value `serve` published, and no poll after the publication leaves one waiting |
| Listening.AddressCell.NotifyListening | src/handle.rs:89-93 | writes the value, stores the latch and broadcasts it, in that order, whatever other threads do before each |
| Listening.AddressCell.PollListening | src/handle.rs:79-87 | one poll is the board's look at the latch and, if it is seen, the read of the value after further interference; it answers what was read, or stays waiting |
| Listening.PublishedThenRead | src/handle.rs:79-93 | with both methods' operations interleaved with any actions of others, a call leaves the value in place behind a finished latch; a poll that starts after the publication, or a caller's first poll after the latch is stored, answers that value, and no poll answers another |
| TlsLayer.PollsAreSequential | src/tls_rustls/future.rs:71-117 | for every sequence of polls and answers, polling gives what awaiting the inner future, taking the config and awaiting the handshake under a timeout gives; no `take().expect` panics |
| TlsLayer.SequentialAnswers | src/tls_rustls/future.rs:74-116 | the answer by the polls that decide it: pending while the inner future is, its error, or what the handshake answers at the first poll at which it is ready or its time, counted from the inner future's completion, has run out |
| TlsLayer.HandshakeWraps | src/tls_rustls/future.rs:103-108 | success adds one layer over the inner stream and wraps the inner future's service, with the config taken |
| TlsLayer.TimesOutOnlyWhenDue | src/tls_rustls/future.rs:110-112 | a timeout means a pending handshake at every poll up to the first one that is due |
| TlsRustls.RustlsConfig.GetInner | src/tls_rustls/mod.rs:256-258 | returns the current config |
| TlsRustls.RustlsConfig.ReloadFromConfig | src/tls_rustls/mod.rs:261-263 | replaces it |
| TlsRustls.RustlsConfig.Reload | src/tls_rustls/mod.rs:270-321 | a config that is built replaces the current one; one that is not leaves it |
| TlsRustls.RustlsAcceptorFuture.Poll | src/tls_rustls/future.rs:71-117 | each poll answers what the sequential program answers to the whole history, with the config read from the shared cell in the instant the inner future completes and each clock reading where the source takes it |
| TlsRustls.RustlsAcceptorFuture.Step | src/tls_rustls/future.rs:74-116 | the loop goes round twice exactly when the inner future completes with a connection, and otherwise once |
| TlsOpenssl.TlsAccept.Poll | src/tls_openssl/future.rs:61-80 | the stream is taken exactly when the handshake succeeds |
| TlsOpenssl.OpenSslAcceptorFuture.Poll | src/tls_openssl/future.rs:110-171 | the same sequential program, although the stream is kept in one more future |
| TlsOpenssl.OpenSslAcceptorFuture.Step | src/tls_openssl/future.rs:123-170 | the same bound on the rounds of its loop, and the same answer and state as the common machine |
| TlsNested.NestedIsSequential | src/tls_rustls/future.rs:71-117 | for every depth and every sequence of polls, answers and reloads, the stack answers what the nested program answers: await the acceptor inside, take this layer's config as it is then, await this layer's handshake under its own timeout; every error, timeout and config included |
| TlsNested.OverIsLayer | src/tls_rustls/mod.rs:134-149 | one layer over any stack is that layer over the answers the stack gives when polled alone, and the stack beneath is where polling it alone takes it |
| TlsNested.NestedAccept | src/tls_rustls/mod.rs:134-149 | at any depth: the answer of the nested sequential program, no completed layer polled again, handshakes from the inside out, and an accepted stream and service that are the leaf's, wrapped once by each layer |
| TlsNested.StackPolls | src/tls_rustls/future.rs:74-116 | one poll of a pending stack polls no finished future and keeps it pending with handshakes from the inside out, or accepts with every layer wrapped |
| TlsNested.NestedAcceptResolvesInTime | src/tls_rustls/future.rs:91-96 | polled at each expiry, a stack resolves by the leaf's time plus the sum of the handshake timeouts |
| TlsReload.ReloadIsolation | src/tls_rustls/mod.rs:256-321 | in any interleaving each handshake uses the config current when its inner future completed and keeps it, and an accepted stream carries it |
| TlsReload.StepKeeps | src/tls_rustls/future.rs:81-96 | the config taken in a step is the current one; a failed reload changes nothing |
| TlsReload.StoredAreTheReloads | src/tls_rustls/mod.rs:261-321 | in any interleaving the cell has held its first config and then each config that a reload has built, in order, and nothing else |
| KeyFile.PrivateKeyFromPem | src/tls_rustls/mod.rs:473-500 | `Ok` exactly when one section is the only key, and with the key at that index; two keys, none among some sections, and an empty file give their own errors |

## Left out

- Sockets, binding, `set_nonblocking` and TCP options: the listener is an arbitrary stream of answers.
- hyper, tokio, rustls and OpenSSL internals: their futures answer arbitrarily.
- Cooperative budgeting and executor fairness: progress is stated per poll.
- Several servers, or several calls of `serve`, on one handle.
- Wrap-around of `conn_count` at the width of `usize`: the count is an integer that is proved not to go below zero.
- The instant at which the listening socket is closed after the accept loop ends (src/server.rs:490).
- `Ssl::new(..).unwrap()` and `SslStream::new(..).unwrap()` in the OpenSSL future: library calls that are taken to succeed.
- PEM, DER and PKCS#8 decoding, key decryption, the SNI resolver and certificate checks: only the loop over decoded sections is modelled.
- `OpenSSLConfig` reloads: the same shared cell as `RustlsConfig`, which is modelled.
- Builder setters, `Debug` impls, ALPN constants, `src/accept.rs`, `src/service.rs` and `src/tls.rs`: setters, formatting and delegation, each a one-line fact.
