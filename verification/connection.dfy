/**
 The task `Server::serve` spawns for a connection (src/server.rs:402-477), one atomic operation at
 a time: three nested `select!`s, each polling its branches in order, and then the drop of the watcher.
 The acceptor's future and hyper's connection future are arbitrary.
 */
module Connection {
  import opened Latches
  import opened HandleModel

  /** The branch about to be polled; `Leaving` is the drop of the captured watcher. */
  datatype Pc =
    | GateShutdown | GateGraceful | GateAccept
    | FirstShutdown | FirstGraceful | FirstTimer | FirstSignal | FirstHttp
    | ServeGraceful | ServeShutdown | ServeHttp
    | DrainShutdown | DrainHttp
    | Leaving(drop: Dropping)

  /** Why the task's body ended. */
  datatype Exit =
    | Running | SawShutdown | SawGraceful | AcceptFailed | TimedOut | SenderGone | HttpDone | Unwound

  /** The first-request channel: nothing sent yet, sent, or every sender dropped unsent. */
  datatype Signal = Held | Sent | Gone

  /**
   `first`: the current `select!` has not parked yet, so its latch waiters have not been polled.
   `entered` and `deadline`: when the acceptor finished, and when the first-request timer fires.
   `acceptReady`, `rxReady`, `httpReady`: the future has returned `Ready`.
   */
  datatype Conn = Conn(
    pc: Pc,
    first: bool,
    entered: nat,
    deadline: nat,
    signal: Signal,
    acceptReady: bool,
    rxReady: bool,
    httpReady: bool,
    gracefulCalls: nat,
    exit: Exit)
  {
    function Goto(pc: Pc): Conn {
      this.(pc := pc, first := true)
    }

    function Park(pc: Pc): Conn {
      this.(pc := pc, first := false)
    }

    function Leave(why: Exit): Conn {
      this.(pc := Leaving(Subtract), first := true, exit := why)
    }

    predicate Done() {
      pc == Leaving(Dropped)
    }

    /** Whether the watcher is still counted by `conn_count`. */
    predicate Counted() {
      pc.Leaving? ==> pc.drop == Subtract
    }

    /** A dropper that took the count to zero and has yet to look at the flag. */
    predicate Checking() {
      pc == Leaving(Check)
    }

    /** A dropper that is on its way to `conn_end`. */
    predicate Ending() {
      pc == Leaving(StoreEnd) || pc == Leaving(BroadcastEnd)
    }

    /** The spawned task has not looked at the graceful latch yet. */
    predicate AtGate() {
      (pc.GateShutdown? || pc.GateGraceful?) && first
    }

    /** A handshake or a request is in progress: the futures exist and the gate is behind. */
    predicate InFlight() {
      !pc.Leaving? && !AtGate()
    }

    predicate AtHead() {
      pc.GateShutdown? || pc.FirstShutdown? || pc.ServeGraceful? || pc.DrainShutdown?
    }

    /** Between two polls of the task. */
    predicate Resting() {
      Done() || (AtHead() && (!first || pc.GateShutdown?))
    }

    predicate PollsHttp() {
      pc.FirstHttp? || pc.ServeHttp? || pc.DrainHttp?
    }

    predicate PollsAcceptor() {
      pc.GateAccept?
    }

    predicate InFirst() {
      pc.FirstShutdown? || pc.FirstGraceful? || pc.FirstTimer? || pc.FirstSignal? || pc.FirstHttp?
    }

    predicate InGate() {
      pc.GateShutdown? || pc.GateGraceful? || pc.GateAccept?
    }

    predicate InDrain() {
      pc.DrainShutdown? || pc.DrainHttp?
    }
  }

  /** The `select!` the task is in. */
  datatype Stage = Gate | First | Serve | Drain | Finished

  /** Where a poll of that `select!` begins. */
  function HeadOf(stage: Stage): Pc {
    match stage
    case Gate => GateShutdown
    case First => FirstShutdown
    case Serve => ServeGraceful
    case Drain => DrainShutdown
    case Finished => Leaving(Dropped)
  }

  const SPAWNED := Conn(GateShutdown, true, 0, 0, Held, false, false, false, 0, Running)

  datatype AcceptReply = AcceptPending | AcceptOk | AcceptErr

  /** What a poll of hyper's future does: it may finish, dispatch requests, drop the service. */
  datatype HttpReply = HttpReply(ready: bool, dispatches: bool, dropsService: bool)

  datatype Reply = Reply(accept: AcceptReply, http: HttpReply)

  function AfterHttp(cfg: Config, c: Conn, h: HttpReply): Conn {
    var signal :=
      if cfg.firstRequest.None? || c.signal != Held then c.signal
      else if h.dispatches then Sent
      else if h.dropsService then Gone
      else Held;
    c.(signal := signal, httpReady := h.ready)
  }

  /** One atomic operation of the task. */
  function Task(cfg: Config, c: Conn, sh: Shared, r: Reply): (Conn, Shared) {
    if c.pc.Leaving? then
      var (d, sh') := DropStep(c.pc.drop, sh);
      (c.(pc := Leaving(d)), sh')
    else if c.pc.GateAccept? then Accepted(cfg, c, sh, r.accept)
    else (Body(cfg, c, sh, r.http), sh)
  }

  /** An operation that only reads the shared state. */
  function Body(cfg: Config, c: Conn, sh: Shared, h: HttpReply): Conn
    requires !c.pc.Leaving? && !c.pc.GateAccept?
  {
    match c.pc
    case GateShutdown => if sh.shutdown.Seen(c.first) then c.Leave(SawShutdown) else c.(pc := GateGraceful)
    case GateGraceful => if sh.graceful.Seen(c.first) then c.Leave(SawGraceful) else c.(pc := GateAccept)
    case FirstShutdown => if sh.shutdown.Seen(c.first) then c.Leave(SawShutdown) else c.(pc := FirstGraceful)
    case FirstGraceful => if sh.graceful.Seen(c.first) then c.Goto(ServeGraceful) else c.(pc := FirstTimer)
    case FirstTimer => if sh.now >= c.deadline then c.Leave(TimedOut) else c.(pc := FirstSignal)
    case FirstSignal => Signalled(c)
    case FirstHttp => Http(cfg, c, h, FirstShutdown)
    case ServeGraceful =>
      if sh.graceful.Seen(c.first) then c.(gracefulCalls := c.gracefulCalls + 1).Goto(DrainShutdown)
      else c.(pc := ServeShutdown)
    case ServeShutdown => if sh.shutdown.Seen(c.first) then c.Leave(SawShutdown) else c.(pc := ServeHttp)
    case ServeHttp => Http(cfg, c, h, ServeGraceful)
    case DrainShutdown => if sh.shutdown.Seen(c.first) then c.Leave(SawShutdown) else c.(pc := DrainHttp)
    case DrainHttp => Http(cfg, c, h, DrainShutdown)
  }

  function Signalled(c: Conn): Conn {
    match c.signal
    case Held => c.(pc := FirstHttp)
    case Sent => c.(rxReady := true).Goto(ServeGraceful)
    case Gone => c.(rxReady := true).Leave(SenderGone)
  }

  function Http(cfg: Config, c: Conn, h: HttpReply, head: Pc): Conn {
    var c' := AfterHttp(cfg, c, h);
    if h.ready then c'.Leave(HttpDone) else c'.Park(head)
  }

  function Accepted(cfg: Config, c: Conn, sh: Shared, r: AcceptReply): (Conn, Shared) {
    match r
    case AcceptPending => (c.Park(GateShutdown), sh)
    case AcceptErr => (c.(acceptReady := true).Leave(AcceptFailed), sh.Report(cfg))
    case AcceptOk =>
      var c' := c.(acceptReady := true, entered := sh.now);
      match cfg.firstRequest
      case Some(timeout) => (c'.(deadline := sh.now + timeout).Goto(FirstShutdown), sh)
      case None => (c'.Goto(ServeGraceful), sh)
  }

  // ---------------------------------------------------------------- polls

  /** Everything outside a poll: what other threads do before each operation, and what futures answer. */
  datatype Env = Env(others: Others, replies: nat -> Reply)

  function TaskOp(cfg: Config, env: Env): Op<Conn> {
    (k: nat, c: Conn, sh: Shared) => Task(cfg, c, env.others(k, sh), env.replies(k))
  }

  /** The task and the shared state after the first `n` operations of a poll. */
  function RunTask(cfg: Config, c: Conn, sh: Shared, env: Env, n: nat): (Conn, Shared) {
    Run(TaskOp(cfg, env), c, sh, 0, n)
  }

  /** The shared state a task reads at its `k`-th operation. */
  function SeenAt(cfg: Config, c: Conn, sh: Shared, env: Env, k: nat): Shared {
    env.others(k, RunTask(cfg, c, sh, env, k).1)
  }

  lemma RunOne(cfg: Config, c: Conn, sh: Shared, env: Env, n: nat)
    ensures RunTask(cfg, c, sh, env, 0) == (c, sh)
    ensures var (c', sh') := RunTask(cfg, c, sh, env, n);
      RunTask(cfg, c, sh, env, n + 1) == Task(cfg, c', env.others(n, sh'), env.replies(n))
  {
  }

  /** The poll that starts at `c` ends after exactly `n` operations. */
  predicate PollEnds(cfg: Config, c: Conn, sh: Shared, env: Env, n: nat) {
    && n > 0
    && RunTask(cfg, c, sh, env, n).0.Resting()
    && forall k :: 0 < k < n ==> !RunTask(cfg, c, sh, env, k).0.Resting()
  }

  // ---------------------------------------------------------------- what every operation keeps

  /** The stage a task is in agrees with what it has done. */
  predicate StageConforms(c: Conn) {
    && (c.httpReady ==> c.pc.Leaving?)
    && (c.pc.Leaving? <==> c.exit != Running)
    && (c.InGate() <==> !c.acceptReady && !c.pc.Leaving?)
    && (c.InDrain() ==> c.gracefulCalls == 1)
    && (!c.InDrain() && !c.pc.Leaving? ==> c.gracefulCalls == 0)
    && c.gracefulCalls <= 1
    && (c.exit.HttpDone? <==> c.httpReady)
  }

  /** The first-request channel and timer agree with the stage and the clock. */
  predicate TimerConforms(cfg: Config, c: Conn, now: nat) {
    && (c.InGate() ==> !c.rxReady && c.signal.Held?)
    && (c.InFirst() ==> cfg.firstRequest.Some? && !c.rxReady && c.deadline == c.entered + cfg.firstRequest.value)
    && (c.exit.TimedOut? ==>
      && cfg.firstRequest.Some?
      && c.entered + cfg.firstRequest.value <= now
      && c.gracefulCalls == 0 && !c.rxReady && !c.httpReady && c.acceptReady)
    && c.entered <= now
    && (cfg.firstRequest.None? ==> c.signal.Held?)
    && (c.rxReady ==> !c.signal.Held?)
  }

  predicate Conforms(cfg: Config, c: Conn, now: nat) {
    StageConforms(c) && TimerConforms(cfg, c, now)
  }

  lemma StageStays(cfg: Config, c: Conn, sh: Shared, r: Reply)
    requires StageConforms(c)
    ensures StageConforms(Task(cfg, c, sh, r).0)
  {
  }

  lemma TimerStays(cfg: Config, c: Conn, sh: Shared, r: Reply)
    requires Conforms(cfg, c, sh.now)
    ensures TimerConforms(cfg, Task(cfg, c, sh, r).0, sh.now)
  {
  }

  lemma TaskConforms(cfg: Config, c: Conn, sh: Shared, r: Reply)
    requires Conforms(cfg, c, sh.now)
    ensures Task(cfg, c, sh, r).1.now == sh.now
    ensures Conforms(cfg, Task(cfg, c, sh, r).0, sh.now)
  {
    StageStays(cfg, c, sh, r);
    TimerStays(cfg, c, sh, r);
  }

  lemma ConformsLater(cfg: Config, c: Conn, now: nat, later: nat)
    requires Conforms(cfg, c, now) && now <= later
    ensures Conforms(cfg, c, later)
  {
  }

  /** A future that has returned `Ready` is not polled again, whatever the state the poll is in. */
  lemma NoUseAfterCompletion(cfg: Config, c: Conn, now: nat)
    requires Conforms(cfg, c, now)
    ensures c.PollsHttp() ==> !c.httpReady
    ensures c.pc.FirstSignal? ==> !c.rxReady
    ensures c.PollsAcceptor() ==> !c.acceptReady
  {
  }

  lemma {:induction false} RunConforms(cfg: Config, c: Conn, sh: Shared, env: Env, n: nat)
    requires Forward(env.others) && Conforms(cfg, c, sh.now)
    ensures var (c', sh') := RunTask(cfg, c, sh, env, n);
      Conforms(cfg, c', sh'.now) && sh.Before(sh')
  {
    if n > 0 {
      RunConforms(cfg, c, sh, env, n - 1);
      var (c', sh') := RunTask(cfg, c, sh, env, n - 1);
      var seen := env.others(n - 1, sh');
      assert sh'.Before(seen);
      ConformsLater(cfg, c', sh'.now, seen.now);
      TaskConforms(cfg, c', seen, env.replies(n - 1));
    }
  }

  /**
   However many polls a task has behind it: at its `n`-th operation it polls no finished future, and
   if that operation finishes hyper's future, the task's body is over with that very operation.
   */
  lemma NoUseAfterCompletionEver(cfg: Config, env: Env, sh: Shared, n: nat)
    requires Forward(env.others)
    ensures var c := RunTask(cfg, SPAWNED, sh, env, n).0;
      && (c.PollsHttp() ==> !c.httpReady)
      && (c.pc.FirstSignal? ==> !c.rxReady)
      && (c.PollsAcceptor() ==> !c.acceptReady)
      && (c.httpReady ==> c.pc.Leaving? && c.exit == HttpDone)
      && c.gracefulCalls <= 1
  {
    RunConforms(cfg, SPAWNED, sh, env, n);
    var (c, sh') := RunTask(cfg, SPAWNED, sh, env, n);
    NoUseAfterCompletion(cfg, c, sh'.now);
  }

  // ---------------------------------------------------------------- graceful shutdown reaches hyper

  /** Where a task can be once every latch read answers "graceful". */
  predicate ToldToStop(c: Conn) {
    && !c.pc.FirstTimer? && !c.pc.FirstSignal? && !c.pc.FirstHttp?
    && !c.pc.ServeShutdown? && !c.pc.ServeHttp? && !c.pc.GateAccept?
    && (c.InDrain() ==> c.gracefulCalls == 1)
  }

  lemma TaskStaysTold(cfg: Config, c: Conn, sh: Shared, r: Reply)
    requires ToldToStop(c) && Conforms(cfg, c, sh.now) && sh.graceful == Latch(true, true)
    ensures ToldToStop(Task(cfg, c, sh, r).0) && Task(cfg, c, sh, r).1.graceful == sh.graceful
  {
  }

  lemma {:induction false} RunStaysTold(cfg: Config, c: Conn, sh: Shared, env: Env, n: nat)
    requires Forward(env.others)
    requires ToldToStop(c) && Conforms(cfg, c, sh.now)
    requires env.others(0, sh).graceful == Latch(true, true)
    ensures ToldToStop(RunTask(cfg, c, sh, env, n).0)
    ensures n > 0 ==> RunTask(cfg, c, sh, env, n).1.graceful == Latch(true, true)
  {
    if n > 0 {
      RunStaysTold(cfg, c, sh, env, n - 1);
      RunConforms(cfg, c, sh, env, n - 1);
      var (c', sh') := RunTask(cfg, c, sh, env, n - 1);
      var seen := env.others(n - 1, sh');
      assert sh'.Before(seen);
      assert seen.graceful == Latch(true, true);
      TaskStaysTold(cfg, c', seen, env.replies(n - 1));
    }
  }

  /**
   In a poll that starts after `graceful_shutdown()` has returned, and in every later one, hyper's
   future is polled only after its own `graceful_shutdown`, which has been called exactly once; the
   acceptor is not polled at all.
   */
  lemma GracefulReachesHyperFirst(cfg: Config, c: Conn, sh: Shared, env: Env, n: nat)
    requires Forward(env.others)
    requires c.Resting() && Conforms(cfg, c, sh.now)
    requires env.others(0, sh).graceful == Latch(true, true)
    ensures var c' := RunTask(cfg, c, sh, env, n).0;
      && (c'.PollsHttp() ==> c'.gracefulCalls == 1)
      && !c'.PollsAcceptor()
  {
    RunStaysTold(cfg, c, sh, env, n);
  }

  /**
   A task that looks at the graceful latch of its serve stage with both latches up asks hyper to stop
   before it is dropped.
   */
  lemma HyperIsToldBeforeTheDrop(cfg: Config, c: Conn, sh: Shared, env: Env, k: nat)
    requires Forward(env.others) && RunTask(cfg, c, sh, env, k).0.pc.ServeGraceful?
    requires RunTask(cfg, c, sh, env, k).0.gracefulCalls == 0
    requires var seen := SeenAt(cfg, c, sh, env, k);
      seen.graceful == Latch(true, true) && seen.shutdown == Latch(true, true)
    ensures var c' := RunTask(cfg, c, sh, env, k + 2).0;
      c'.gracefulCalls == 1 && c'.exit == SawShutdown
  {
    RunOne(cfg, c, sh, env, k);
    RunOne(cfg, c, sh, env, k + 1);
    var s1 := RunTask(cfg, c, sh, env, k + 1).1;
    assert s1.Before(env.others(k + 1, s1));
  }

  // ---------------------------------------------------------------- shutdown ends the task

  /** How many more operations a task can make once `shutdown()` has returned. */
  function Rank(c: Conn): nat {
    match c.pc
    case Leaving(Dropped) => 0
    case Leaving(BroadcastEnd) => 1
    case Leaving(StoreEnd) => 2
    case Leaving(Check) => 3
    case Leaving(Subtract) => 4
    case GateShutdown => 5
    case FirstShutdown => 5
    case ServeShutdown => 5
    case DrainShutdown => 5
    case DrainHttp => 6
    case ServeGraceful => 6
    case ServeHttp => 7
    case FirstHttp => 7
    case FirstSignal => 8
    case FirstTimer => 9
    case FirstGraceful => 10
    case GateAccept => 7
    case GateGraceful => 8
  }

  /**
   After `shutdown()` every operation of a task, whatever its phase and whatever its futures answer,
   brings it closer to its end.
   */
  lemma ShutdownShrinks(cfg: Config, c: Conn, sh: Shared, r: Reply)
    requires sh.shutdown == Latch(true, true) && !c.Done()
    ensures Rank(Task(cfg, c, sh, r).0) < Rank(c) <= 10
  {
  }

  /** A task between two polls gets to its drop with the first or the second operation after `shutdown()`. */
  lemma ShutdownLeaves(cfg: Config, c: Conn, sh: Shared, env: Env) returns (k: nat)
    requires Forward(env.others)
    requires c.Resting() && !c.Done()
    requires env.others(0, sh).shutdown == Latch(true, true)
    ensures 0 < k <= 2 && RunTask(cfg, c, sh, env, k).0.pc == Leaving(Subtract)
    ensures forall m :: 0 < m < k ==> !RunTask(cfg, c, sh, env, m).0.Resting()
  {
    var (c1, s1) := RunTask(cfg, c, sh, env, 1);
    assert RunTask(cfg, c, sh, env, 0) == (c, sh);
    assert s1.shutdown == Latch(true, true);
    assert s1.Before(env.others(1, s1));
    var (c2, s2) := RunTask(cfg, c, sh, env, 2);
    k := if c1.pc.Leaving? then 1 else 2;
  }

  /**
   One poll that starts after `shutdown()` has returned takes a task to its drop, and the drop
   finishes in the same poll.
   */
  lemma ShutdownEndsInOnePoll(cfg: Config, c: Conn, sh: Shared, env: Env, n: nat)
    requires Forward(env.others)
    requires c.Resting() && !c.Done()
    requires env.others(0, sh).shutdown == Latch(true, true)
    requires PollEnds(cfg, c, sh, env, n)
    ensures RunTask(cfg, c, sh, env, n).0.Done()
    ensures n <= 6
    ensures exists k :: 0 < k <= 2 && RunTask(cfg, c, sh, env, k).0.pc == Leaving(Subtract)
  {
    var k := ShutdownLeaves(cfg, c, sh, env);
    LeavingStays(cfg, c, sh, env, k, n);
    if n > 6 {
      DropEnds(cfg, c, sh, env, k);
      assert false;
    }
  }

  lemma {:induction false} LeavingStays(cfg: Config, c: Conn, sh: Shared, env: Env, k: nat, m: nat)
    requires k <= m && RunTask(cfg, c, sh, env, k).0.pc.Leaving?
    ensures RunTask(cfg, c, sh, env, m).0.pc.Leaving?
    ensures RunTask(cfg, c, sh, env, m).0.exit == RunTask(cfg, c, sh, env, k).0.exit
    decreases m
  {
    if k < m {
      LeavingStays(cfg, c, sh, env, k, m - 1);
      RunOne(cfg, c, sh, env, m - 1);
    }
  }

  lemma DropEnds(cfg: Config, c: Conn, sh: Shared, env: Env, k: nat)
    requires RunTask(cfg, c, sh, env, k).0.pc == Leaving(Subtract)
    ensures RunTask(cfg, c, sh, env, k + 4).0.Done()
  {
    RunOne(cfg, c, sh, env, k);
    RunOne(cfg, c, sh, env, k + 1);
    RunOne(cfg, c, sh, env, k + 2);
    RunOne(cfg, c, sh, env, k + 3);
  }

  lemma {:induction false} DoneStays(cfg: Config, c: Conn, sh: Shared, env: Env, k: nat, n: nat)
    requires k <= n && RunTask(cfg, c, sh, env, k).0.Done()
    ensures RunTask(cfg, c, sh, env, n).0.Done()
    decreases n
  {
    if k < n {
      DoneStays(cfg, c, sh, env, k, n - 1);
      RunOne(cfg, c, sh, env, n - 1);
    }
  }

  /** After `shutdown()` a task is between two polls again, or has made six operations, only when it is done. */
  lemma ShutdownIsOver(cfg: Config, c: Conn, sh: Shared, env: Env, n: nat)
    requires Forward(env.others)
    requires c.Resting() && !c.Done()
    requires env.others(0, sh).shutdown == Latch(true, true)
    requires n >= 6 || (n > 0 && RunTask(cfg, c, sh, env, n).0.Resting())
    ensures RunTask(cfg, c, sh, env, n).0.Done()
  {
    var k := ShutdownLeaves(cfg, c, sh, env);
    if n >= 6 {
      DropEnds(cfg, c, sh, env, k);
      DoneStays(cfg, c, sh, env, k + 4, n);
    } else {
      LeavingStays(cfg, c, sh, env, k, n);
    }
  }

  // ---------------------------------------------------------------- the first-request timer

  predicate AfterFirst(c: Conn) {
    && c.exit != TimedOut
    && (c.pc.ServeGraceful? || c.pc.ServeShutdown? || c.pc.ServeHttp? || c.InDrain() || c.pc.Leaving?)
  }

  predicate ClosedByTimer(c: Conn) {
    c.pc.Leaving? && c.exit == TimedOut
  }

  lemma TaskStaysAfterFirst(cfg: Config, c: Conn, sh: Shared, r: Reply)
    requires AfterFirst(c)
    ensures AfterFirst(Task(cfg, c, sh, r).0)
  {
  }

  lemma TaskStaysClosed(cfg: Config, c: Conn, sh: Shared, r: Reply)
    requires ClosedByTimer(c)
    ensures ClosedByTimer(Task(cfg, c, sh, r).0)
  {
  }

  /**
   Once past the first-request stage the timer can never close the connection, in this poll or a
   later one.
   */
  lemma {:induction false} TimerIsOver(cfg: Config, c: Conn, sh: Shared, env: Env, k: nat, n: nat)
    requires k <= n
    ensures AfterFirst(RunTask(cfg, c, sh, env, k).0) ==> AfterFirst(RunTask(cfg, c, sh, env, n).0)
    ensures ClosedByTimer(RunTask(cfg, c, sh, env, k).0) ==> ClosedByTimer(RunTask(cfg, c, sh, env, n).0)
    decreases n
  {
    if k < n {
      TimerIsOver(cfg, c, sh, env, k, n - 1);
      var (c', sh') := RunTask(cfg, c, sh, env, n - 1);
      if AfterFirst(c') {
        TaskStaysAfterFirst(cfg, c', env.others(n - 1, sh'), env.replies(n - 1));
      }
      if ClosedByTimer(c') {
        TaskStaysClosed(cfg, c', env.others(n - 1, sh'), env.replies(n - 1));
      }
    }
  }

  lemma Advance(cfg: Config, c: Conn, sh: Shared, env: Env, n: nat) returns (m: nat, c': Conn, sh': Shared)
    ensures m == n + 1 && RunTask(cfg, c, sh, env, m) == (c', sh')
    ensures (c', sh') == Task(cfg, RunTask(cfg, c, sh, env, n).0, SeenAt(cfg, c, sh, env, n), env.replies(n))
  {
    m := n + 1;
    var (c1, sh1) := RunTask(cfg, c, sh, env, m);
    c', sh' := c1, sh1;
  }

  /**
   Operation `k` of a poll is the first of the first-request `select!`, whether it has parked there
   before or just entered.
   */
  predicate AtFirstRequest(cfg: Config, c: Conn, sh: Shared, env: Env, n: nat, k: nat) {
    && PollEnds(cfg, c, sh, env, n) && k < n
    && RunTask(cfg, c, sh, env, k).0.pc.FirstShutdown? && RunTask(cfg, c, sh, env, k).0.exit.Running?
  }

  /** Neither latch is seen at the two operations before the timer. */
  predicate NeitherLatch(cfg: Config, c: Conn, sh: Shared, env: Env, k: nat) {
    var first := RunTask(cfg, c, sh, env, k).0.first;
    !SeenAt(cfg, c, sh, env, k).shutdown.Seen(first) && !SeenAt(cfg, c, sh, env, k + 1).graceful.Seen(first)
  }

  /** The three reads that come before the signal. */
  lemma TimerReads(cfg: Config, c: Conn, sh: Shared, env: Env, n: nat, k: nat) returns (m: nat)
    requires AtFirstRequest(cfg, c, sh, env, n, k)
    ensures k < m <= k + 3
    ensures forall j :: k < j < m ==> !RunTask(cfg, c, sh, env, j).0.Resting()
    ensures var q := RunTask(cfg, c, sh, env, k).0;
      var c' := RunTask(cfg, c, sh, env, m).0;
      if !NeitherLatch(cfg, c, sh, env, k) then AfterFirst(c')
      else
        && m == k + 3
        && if SeenAt(cfg, c, sh, env, k + 2).now >= q.deadline then ClosedByTimer(c')
           else c' == q.(pc := FirstSignal)
  {
    var m1, c1, _ := Advance(cfg, c, sh, env, k);
    if SeenAt(cfg, c, sh, env, k).shutdown.Seen(RunTask(cfg, c, sh, env, k).0.first) {
      return m1;
    }
    assert c1 == RunTask(cfg, c, sh, env, k).0.(pc := FirstGraceful);
    var m2, c2, _ := Advance(cfg, c, sh, env, m1);
    if SeenAt(cfg, c, sh, env, m1).graceful.Seen(c1.first) {
      return m2;
    }
    assert c2 == RunTask(cfg, c, sh, env, k).0.(pc := FirstTimer);
    var m3, c3, _ := Advance(cfg, c, sh, env, m2);
    return m3;
  }

  /** The rest of such a poll: the signal, and then hyper's future if nothing has been dispatched. */
  lemma SignalAndHttp(cfg: Config, c: Conn, sh: Shared, env: Env, k: nat) returns (m: nat)
    requires var c' := RunTask(cfg, c, sh, env, k).0; c'.pc.FirstSignal? && c'.exit.Running?
    ensures k < m <= k + 2
    ensures forall j :: k <= j < m ==> !RunTask(cfg, c, sh, env, j).0.Resting()
    ensures var c' := RunTask(cfg, c, sh, env, m).0; AfterFirst(c') || (c'.Resting() && c'.exit.Running?)
    ensures RunTask(cfg, c, sh, env, k).0.signal.Sent? ==> AfterFirst(RunTask(cfg, c, sh, env, m).0)
  {
    var m1, c1, _ := Advance(cfg, c, sh, env, k);
    if AfterFirst(c1) {
      return m1;
    }
    var m2, c2, _ := Advance(cfg, c, sh, env, m1);
    return m2;
  }

  /**
   A poll that reaches the first-request `select!`, also for the first time, closes the connection by
   the timer exactly when neither latch is seen and the timer is due. The timer is polled before the
   signal, so this is so even when the request has been dispatched.
   */
  lemma TimerIsExact(cfg: Config, c: Conn, sh: Shared, env: Env, n: nat, k: nat)
    requires AtFirstRequest(cfg, c, sh, env, n, k)
    ensures RunTask(cfg, c, sh, env, n).0.exit == TimedOut <==>
      && NeitherLatch(cfg, c, sh, env, k)
      && SeenAt(cfg, c, sh, env, k + 2).now >= RunTask(cfg, c, sh, env, k).0.deadline
  {
    var m := TimerReads(cfg, c, sh, env, n, k);
    if RunTask(cfg, c, sh, env, m).0.pc.FirstSignal? {
      m := SignalAndHttp(cfg, c, sh, env, m);
    }
    var c' := RunTask(cfg, c, sh, env, m).0;
    if n < m {
      assert false;
    }
    if c'.Resting() && c'.exit.Running? {
      assert n == m;
    } else {
      TimerIsOver(cfg, c, sh, env, m, n);
    }
  }

  /** The operation after a timer that is not due looks at the signal. */
  lemma SignalAnswers(cfg: Config, c: Conn, sh: Shared, env: Env, n: nat, k: nat)
    requires AtFirstRequest(cfg, c, sh, env, n, k) && NeitherLatch(cfg, c, sh, env, k)
    requires SeenAt(cfg, c, sh, env, k + 2).now < RunTask(cfg, c, sh, env, k).0.deadline
    ensures var q := RunTask(cfg, c, sh, env, k).0;
      var c' := RunTask(cfg, c, sh, env, k + 4).0;
      match q.signal
      case Sent => c' == q.(pc := ServeGraceful, first := true, rxReady := true)
      case Gone => c' == q.(pc := Leaving(Subtract), first := true, rxReady := true, exit := SenderGone)
      case Held => c' == q.(pc := FirstHttp)
  {
    var m := TimerReads(cfg, c, sh, env, n, k);
    RunOne(cfg, c, sh, env, m);
  }

  /**
   A dispatched request saves the connection exactly when the poll reaches the timer before the
   deadline: the task then goes on to the serve `select!`, and otherwise the timer closes it.
   */
  lemma DispatchedRequestIsSavedIff(cfg: Config, c: Conn, sh: Shared, env: Env, n: nat, k: nat)
    requires AtFirstRequest(cfg, c, sh, env, n, k) && RunTask(cfg, c, sh, env, k).0.signal.Sent?
    requires NeitherLatch(cfg, c, sh, env, k)
    ensures SeenAt(cfg, c, sh, env, k + 2).now < RunTask(cfg, c, sh, env, k).0.deadline <==>
      AfterFirst(RunTask(cfg, c, sh, env, n).0)
    ensures var q := RunTask(cfg, c, sh, env, k).0;
      if SeenAt(cfg, c, sh, env, k + 2).now < q.deadline then
        RunTask(cfg, c, sh, env, k + 4).0 == q.(pc := ServeGraceful, first := true, rxReady := true)
      else
        RunTask(cfg, c, sh, env, n).0.exit == TimedOut
  {
    TimerIsExact(cfg, c, sh, env, n, k);
    var m := TimerReads(cfg, c, sh, env, n, k);
    if RunTask(cfg, c, sh, env, m).0.pc.FirstSignal? {
      SignalAnswers(cfg, c, sh, env, n, k);
      m := SignalAndHttp(cfg, c, sh, env, m);
      if n < m {
        assert false;
      }
      TimerIsOver(cfg, c, sh, env, m, n);
    }
  }

  /** Hyper has dropped the service without a request: the poll that reaches the signal ends the task. */
  lemma SenderGoneCloses(cfg: Config, c: Conn, sh: Shared, env: Env, n: nat, k: nat)
    requires AtFirstRequest(cfg, c, sh, env, n, k) && RunTask(cfg, c, sh, env, k).0.signal.Gone?
    requires NeitherLatch(cfg, c, sh, env, k)
    ensures var q := RunTask(cfg, c, sh, env, k).0;
      var c' := RunTask(cfg, c, sh, env, n).0;
      c'.Done() && c'.exit == if SeenAt(cfg, c, sh, env, k + 2).now < q.deadline then SenderGone else TimedOut
  {
    var m := TimerReads(cfg, c, sh, env, n, k);
    if RunTask(cfg, c, sh, env, m).0.pc.FirstSignal? {
      SignalAnswers(cfg, c, sh, env, n, k);
      m := m + 1;
    }
    if n < m {
      assert false;
    }
    LeavingStays(cfg, c, sh, env, m, n);
  }
}
