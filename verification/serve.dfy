/**
 `Server::serve` (src/server.rs:347-529), one atomic operation at a time: bind, the outer `select!`
 on shutdown, the accept loop with its back-off, and `wait_connections_end` (src/handle.rs:107-122).
 The listener and the make-service are arbitrary.
 */
module ServeModel {
  import opened Prelude
  import opened Latches
  import opened HandleModel

  /** Where the accept loop is suspended. */
  datatype Spot = AtAccept | AtReady | AtMake

  /** How `serve` ended; the first two are errors, and `Cancelled` is a dropped future. */
  datatype Outcome =
    | BindFailed | ReadyFailed | StoppedAtOnce | NoConnections | Drained | OutOfTime | Cancelled

  datatype ServePc =
    | Binding
    | OuterShutdown | LoopAccept | LoopGraceful | LoopReady | LoopMake
    | EndLoad | EndLock | EndTimer | EndStore | EndBroadcast | EndLatch
    | Returned(outcome: Outcome)
  {
    /** Inside `wait_connections_end`. */
    predicate Ending() {
      EndLoad? || EndLock? || EndTimer? || EndStore? || EndBroadcast? || EndLatch?
    }

    /** Inside `wait_connections_end` with a non-zero count behind it. */
    predicate Waiting() {
      Ending() && !EndLoad?
    }

    /** The accept loop was left because of a graceful shutdown. */
    predicate PastLoop() {
      Ending() || (Returned? && (outcome.Drained? || outcome.NoConnections? || outcome.OutOfTime?))
    }

    /** Connections may still be accepted. */
    predicate Accepting() {
      Binding? || OuterShutdown? || LoopAccept? || LoopGraceful? || LoopReady? || LoopMake?
    }
  }

  /** The pause of `accept` after a listener error, in milliseconds. */
  const BACKOFF := 50

  /**
   `outerFirst`, `loopFirst`, `endFirst`: the waiter of that `select!` has not been polled yet.
   `holding`: a stream has been accepted and not yet handed on. The last four fields count events.
   */
  datatype Serve = Serve(
    pc: ServePc,
    outerFirst: bool,
    spot: Spot,
    loopFirst: bool,
    backoff: Option<nat>,
    endFirst: bool,
    grace: Grace,
    deadline: nat,
    holding: bool,
    listened: nat,
    listenErrs: nat,
    makeErrs: nat,
    spawned: nat)
  {
    function Return(o: Outcome): Serve {
      this.(pc := Returned(o))
    }

    /** The top of the accept loop: fresh `accept` and graceful futures. */
    function NextAccept(): Serve {
      this.(pc := LoopAccept, spot := AtAccept, loopFirst := true, backoff := None)
    }

    /** Return `Pending` from inside the accept loop. */
    function ParkLoop(spot: Spot): Serve {
      this.(pc := OuterShutdown, outerFirst := false, spot := spot)
    }

    /** Between two polls of the `serve` future. */
    predicate Resting() {
      match pc
      case Binding => true
      case OuterShutdown => !outerFirst
      case EndTimer => !endFirst
      case EndLatch => !endFirst && grace.None?
      case Returned(_) => true
      case _ => false
    }
  }

  const STARTED := Serve(Binding, true, AtAccept, true, None, true, None, 0, false, 0, 0, 0, 0)

  datatype ListenReply = ListenPending | ListenOk | ListenErr

  datatype StepReply = StepPending | StepOk | StepErr

  datatype ServeReply = ServeReply(bind: StepReply, listen: ListenReply, ready: StepReply, make: StepReply)

  /** Where a poll of the accept loop goes on. */
  function Resume(spot: Spot): ServePc {
    match spot
    case AtAccept => LoopAccept
    case AtReady => LoopReady
    case AtMake => LoopMake
  }

  /** One atomic operation of `serve`. */
  function ServeStep(cfg: Config, p: Serve, sh: Shared, r: ServeReply): (Serve, Shared) {
    if p.pc.Waiting() then EndStep(p, sh)
    else if p.pc.LoopMake? then MakeStep(cfg, p, sh, r.make)
    else if p.pc.LoopAccept? then AcceptStep(cfg, p, sh, r.listen)
    else (PlainStep(p, sh, r), sh)
  }

  /** An operation that only reads the shared state. */
  function PlainStep(p: Serve, sh: Shared, r: ServeReply): Serve
    requires !p.pc.Waiting() && !p.pc.LoopMake? && !p.pc.LoopAccept?
  {
    match p.pc
    case Binding => (match r.bind
                     case StepPending => p
                     case StepErr => p.Return(BindFailed)
                     case StepOk => p.(pc := OuterShutdown))
    case OuterShutdown =>
      if sh.shutdown.Seen(p.outerFirst) then p.Return(StoppedAtOnce)
      else p.(pc := Resume(p.spot))
    case LoopGraceful =>
      if sh.graceful.Seen(p.loopFirst) then p.(pc := EndLoad)
      else p.(loopFirst := false).ParkLoop(AtAccept)
    case LoopReady => (match r.ready
                       case StepPending => p.ParkLoop(AtReady)
                       case StepErr => p.Return(ReadyFailed)
                       case StepOk => p.(pc := LoopMake, spot := AtMake))
    case EndLoad => if sh.connCount == 0 then p.Return(NoConnections) else p.(pc := EndLock)
    case Returned(_) => p
  }

  /** A poll of `accept` (lines 511-529): a listener error is reported and backed off from. */
  function AcceptStep(cfg: Config, p: Serve, sh: Shared, r: ListenReply): (Serve, Shared)
    requires p.pc.LoopAccept?
  {
    match p.backoff
    case Some(until) => (if sh.now < until then p.(pc := LoopGraceful) else p.(backoff := None), sh)
    case None =>
      match r
      case ListenPending => (p.(pc := LoopGraceful), sh)
      case ListenErr => (p.(listenErrs := p.listenErrs + 1, backoff := Some(sh.now + BACKOFF)), sh.Report(cfg))
      case ListenOk => (p.(pc := LoopReady, spot := AtReady, holding := true, listened := p.listened + 1), sh)
  }

  /** Lines 386-402: the watcher is created, and the task spawned, only if there is a service. */
  function MakeStep(cfg: Config, p: Serve, sh: Shared, r: StepReply): (Serve, Shared)
    requires p.pc.LoopMake?
  {
    match r
    case StepPending => (p.ParkLoop(AtMake), sh)
    case StepErr => (p.(holding := false, makeErrs := p.makeErrs + 1).NextAccept(), sh.Report(cfg))
    case StepOk =>
      (p.(holding := false, spawned := p.spawned + 1).NextAccept(), sh.(connCount := sh.connCount + 1))
  }

  /** The rest of `wait_connections_end`, the timer before the latch. */
  function EndStep(p: Serve, sh: Shared): (Serve, Shared)
    requires p.pc.Waiting()
  {
    match p.pc
    case EndLock => (match sh.gracefulDur
                     case Some(d) => p.(pc := EndTimer, grace := Some(d), deadline := sh.now + d)
                     case None => p.(pc := EndLatch, grace := None), sh)
    case EndTimer => (if sh.now >= p.deadline then p.(pc := EndStore) else p.(pc := EndLatch), sh)
    case EndStore => (p.(pc := EndBroadcast), sh.(shutdown := sh.shutdown.Store()))
    case EndBroadcast => (p.Return(OutOfTime), sh.(shutdown := sh.shutdown.Broadcast()))
    case EndLatch =>
      (if sh.connEnd.Seen(p.endFirst) then p.Return(Drained)
       else p.(endFirst := false, pc := if p.grace.Some? then EndTimer else EndLatch), sh)
  }

  // ---------------------------------------------------------------- polls

  datatype ServeEnv = ServeEnv(others: Others, replies: nat -> ServeReply)

  function ServeOp(cfg: Config, env: ServeEnv): Op<Serve> {
    (k: nat, p: Serve, sh: Shared) => ServeStep(cfg, p, env.others(k, sh), env.replies(k))
  }

  /** `serve` and the shared state after the first `n` operations of a poll. */
  function RunServe(cfg: Config, p: Serve, sh: Shared, env: ServeEnv, n: nat): (Serve, Shared) {
    Run(ServeOp(cfg, env), p, sh, 0, n)
  }

  /** The shared state `serve` reads at its `k`-th operation. */
  function ServeSees(cfg: Config, p: Serve, sh: Shared, env: ServeEnv, k: nat): Shared {
    env.others(k, RunServe(cfg, p, sh, env, k).1)
  }

  lemma ServeOne(cfg: Config, p: Serve, sh: Shared, env: ServeEnv, n: nat)
    ensures RunServe(cfg, p, sh, env, 0) == (p, sh)
    ensures RunServe(cfg, p, sh, env, n + 1) ==
      ServeStep(cfg, RunServe(cfg, p, sh, env, n).0, ServeSees(cfg, p, sh, env, n), env.replies(n))
  {
  }

  /** The poll that starts at `p` ends after exactly `n` operations. */
  predicate ServePollEnds(cfg: Config, p: Serve, sh: Shared, env: ServeEnv, n: nat) {
    && n > 0
    && RunServe(cfg, p, sh, env, n).0.Resting()
    && forall k :: 0 < k < n ==> !RunServe(cfg, p, sh, env, k).0.Resting()
  }

  // ---------------------------------------------------------------- the pause after a listener error

  /** `serve` pauses until `until`, or has left the accept loop for good. */
  predicate Pausing(p: Serve, until: nat) {
    || !p.pc.Accepting()
    || (p.backoff == Some(until) && p.spot.AtAccept?
        && (p.pc.LoopAccept? || p.pc.LoopGraceful? || p.pc.OuterShutdown?))
  }

  lemma WaitStaysLeft(p: Serve, sh: Shared)
    requires p.pc.Waiting()
    ensures var (p', sh') := EndStep(p, sh);
      && !p'.pc.Accepting() && sh'.connCount == sh.connCount
      && p'.listened == p.listened && p'.listenErrs == p.listenErrs && p'.spawned == p.spawned
  {
  }

  lemma LoopStaysLeft(cfg: Config, p: Serve, sh: Shared, r: ServeReply)
    requires !p.pc.Accepting()
    ensures var (p', sh') := ServeStep(cfg, p, sh, r);
      && !p'.pc.Accepting() && sh'.connCount == sh.connCount
      && p'.listened == p.listened && p'.listenErrs == p.listenErrs && p'.spawned == p.spawned
  {
    if p.pc.Waiting() {
      WaitStaysLeft(p, sh);
    } else {
      assert ServeStep(cfg, p, sh, r).0 == PlainStep(p, sh, r);
    }
  }

  lemma PauseStep(cfg: Config, p: Serve, sh: Shared, r: ServeReply, until: nat)
    requires Pausing(p, until) && sh.now < until
    ensures var p' := ServeStep(cfg, p, sh, r).0;
      Pausing(p', until) && p'.listened == p.listened && p'.listenErrs == p.listenErrs
  {
    if !p.pc.Accepting() {
      LoopStaysLeft(cfg, p, sh, r);
    } else if p.pc.LoopAccept? {
      assert ServeStep(cfg, p, sh, r).0 == p.(pc := LoopGraceful);
    } else {
      assert ServeStep(cfg, p, sh, r).0 == PlainStep(p, sh, r);
    }
  }

  /** The next operation polls the listener. */
  predicate AsksListener(p: Serve) {
    p.pc.LoopAccept? && p.backoff.None?
  }

  /** Operation `k` polls the listener and is answered with an error. */
  predicate ListenerFails(cfg: Config, p: Serve, sh: Shared, env: ServeEnv, k: nat) {
    var p' := RunServe(cfg, p, sh, env, k).0;
    AsksListener(p') && p'.spot.AtAccept? && env.replies(k).listen.ListenErr?
  }

  /**
   After a listener error, which is counted and reported, the listener is not polled again until 50 ms
   have passed, whatever it would answer, in this poll or a later one.
   */
  lemma {:induction false} ThePauseHolds(cfg: Config, p: Serve, sh: Shared, env: ServeEnv, k: nat, n: nat)
    requires k < n && ListenerFails(cfg, p, sh, env, k)
    requires forall j :: k < j < n ==>
      ServeSees(cfg, p, sh, env, j).now < ServeSees(cfg, p, sh, env, k).now + BACKOFF
    ensures var before := RunServe(cfg, p, sh, env, k).0;
      var after := RunServe(cfg, p, sh, env, n).0;
      && Pausing(after, ServeSees(cfg, p, sh, env, k).now + BACKOFF)
      && after.listenErrs == before.listenErrs + 1
      && after.listened == before.listened
    ensures RunServe(cfg, p, sh, env, k + 1).1 == ServeSees(cfg, p, sh, env, k).Report(cfg)
    decreases n
  {
    ServeOne(cfg, p, sh, env, k);
    if k + 1 < n {
      ThePauseHolds(cfg, p, sh, env, k, n - 1);
      ServeOne(cfg, p, sh, env, n - 1);
      PauseStep(cfg, RunServe(cfg, p, sh, env, n - 1).0, ServeSees(cfg, p, sh, env, n - 1), env.replies(n - 1),
                ServeSees(cfg, p, sh, env, k).now + BACKOFF);
    }
  }

  /**
   The pause is 50 ms, not less and not more: at its first look at the clock from then on `accept` asks
   the listener again, and at every look before that it does not.
   */
  lemma ThePauseEnds(cfg: Config, p: Serve, sh: Shared, env: ServeEnv, k: nat, n: nat)
    requires k < n && ListenerFails(cfg, p, sh, env, k) && RunServe(cfg, p, sh, env, n).0.pc.LoopAccept?
    requires forall j :: k < j < n ==> ServeSees(cfg, p, sh, env, j).now < ServeSees(cfg, p, sh, env, k).now + 50
    ensures var q := RunServe(cfg, p, sh, env, n).0;
      var q' := RunServe(cfg, p, sh, env, n + 1).0;
      if ServeSees(cfg, p, sh, env, k).now + 50 <= ServeSees(cfg, p, sh, env, n).now then
        AsksListener(q') && q' == q.(backoff := None)
      else
        q' == q.(pc := LoopGraceful)
    ensures !AsksListener(RunServe(cfg, p, sh, env, n).0)
  {
    ThePauseHolds(cfg, p, sh, env, k, n);
    ServeOne(cfg, p, sh, env, n);
  }

  // ---------------------------------------------------------------- deadlines

  lemma {:induction false} ReturnedStays(cfg: Config, p: Serve, sh: Shared, env: ServeEnv, k: nat, n: nat)
    requires k <= n && RunServe(cfg, p, sh, env, k).0.pc.Returned?
    ensures RunServe(cfg, p, sh, env, n).0 == RunServe(cfg, p, sh, env, k).0
    decreases n
  {
    if k < n {
      ReturnedStays(cfg, p, sh, env, k, n - 1);
      ServeOne(cfg, p, sh, env, n - 1);
    }
  }

  /** A poll that has not ended goes on to the next operation. */
  lemma PollGoesOn(cfg: Config, p: Serve, sh: Shared, env: ServeEnv, n: nat, k: nat)
    requires ServePollEnds(cfg, p, sh, env, n) && k <= n
    requires k == 0 || !RunServe(cfg, p, sh, env, k).0.Resting()
    ensures k < n
  {
  }

  /** A due timer shuts the server down in three operations, whatever runs in between. */
  lemma DueRun(cfg: Config, p: Serve, sh: Shared, env: ServeEnv, k: nat)
    requires Forward(env.others) && RunServe(cfg, p, sh, env, k).0.pc.EndTimer?
    requires ServeSees(cfg, p, sh, env, k).now >= RunServe(cfg, p, sh, env, k).0.deadline
    ensures RunServe(cfg, p, sh, env, k + 1).0.pc.EndStore?
    ensures RunServe(cfg, p, sh, env, k + 2).0.pc.EndBroadcast?
    ensures RunServe(cfg, p, sh, env, k + 3).0.pc == Returned(OutOfTime)
    ensures RunServe(cfg, p, sh, env, k + 3).1.shutdown == Latch(true, true)
  {
    ServeOne(cfg, p, sh, env, k);
    ServeOne(cfg, p, sh, env, k + 1);
    ServeOne(cfg, p, sh, env, k + 2);
    var s2 := RunServe(cfg, p, sh, env, k + 2).1;
    assert s2.Before(env.others(k + 2, s2));
  }

  /** A timer that is not due lets `serve` look at `conn_end`, and return or wait on. */
  lemma NotDueRun(cfg: Config, p: Serve, sh: Shared, env: ServeEnv, k: nat)
    requires RunServe(cfg, p, sh, env, k).0.pc.EndTimer? && RunServe(cfg, p, sh, env, k).0.grace.Some?
    requires ServeSees(cfg, p, sh, env, k).now < RunServe(cfg, p, sh, env, k).0.deadline
    ensures RunServe(cfg, p, sh, env, k + 1).0.pc.EndLatch? && RunServe(cfg, p, sh, env, k + 1).0.grace.Some?
    ensures var q := RunServe(cfg, p, sh, env, k).0;
      var seen := ServeSees(cfg, p, sh, env, k + 1);
      RunServe(cfg, p, sh, env, k + 2) ==
        (if seen.connEnd.Seen(q.endFirst) then q.Return(Drained) else q.(endFirst := false), seen)
  {
    ServeOne(cfg, p, sh, env, k);
    ServeOne(cfg, p, sh, env, k + 1);
  }

  /** Likewise, by how many operations it is away. */
  lemma DueAfter(cfg: Config, p: Serve, sh: Shared, env: ServeEnv, k: nat, n: nat)
    requires Forward(env.others) && RunServe(cfg, p, sh, env, k).0.pc.EndTimer? && k < n <= k + 3
    requires ServeSees(cfg, p, sh, env, k).now >= RunServe(cfg, p, sh, env, k).0.deadline
    ensures var (p', sh') := RunServe(cfg, p, sh, env, n);
      && (p'.Resting() <==> n == k + 3)
      && (n == k + 3 ==> p'.pc == Returned(OutOfTime) && sh'.shutdown == Latch(true, true))
  {
    DueRun(cfg, p, sh, env, k);
  }

  lemma DueIsShutDown(cfg: Config, p: Serve, sh: Shared, env: ServeEnv, n: nat, k: nat)
    requires Forward(env.others) && ServePollEnds(cfg, p, sh, env, n) && k < n
    requires RunServe(cfg, p, sh, env, k).0.pc.EndTimer?
    requires ServeSees(cfg, p, sh, env, k).now >= RunServe(cfg, p, sh, env, k).0.deadline
    ensures var (p', sh') := RunServe(cfg, p, sh, env, n);
      n == k + 3 && p'.pc == Returned(OutOfTime) && sh'.shutdown == Latch(true, true)
  {
    DueRun(cfg, p, sh, env, k);
    PollGoesOn(cfg, p, sh, env, n, k + 1);
    PollGoesOn(cfg, p, sh, env, n, k + 2);
  }

  /**
   In any poll, the one that enters the wait included: if the timer, at operation `k`, is due, the
   poll returns, having shut the server down; otherwise it returns exactly when `conn_end` is seen at
   the next operation, and then without a shutdown, and else parks under the same deadline.
   */
  lemma DeadlineIsExact(cfg: Config, p: Serve, sh: Shared, env: ServeEnv, n: nat, k: nat)
    requires Forward(env.others) && ServePollEnds(cfg, p, sh, env, n) && k < n
    requires RunServe(cfg, p, sh, env, k).0.pc.EndTimer? && RunServe(cfg, p, sh, env, k).0.grace.Some?
    ensures var q := RunServe(cfg, p, sh, env, k).0;
      var (p', sh') := RunServe(cfg, p, sh, env, n);
      if ServeSees(cfg, p, sh, env, k).now >= q.deadline then
        p'.pc == Returned(OutOfTime) && sh'.shutdown == Latch(true, true)
      else if ServeSees(cfg, p, sh, env, k + 1).connEnd.Seen(q.endFirst) then
        n == k + 2 && p' == q.Return(Drained) && sh'.shutdown == ServeSees(cfg, p, sh, env, k + 1).shutdown
      else
        n == k + 2 && p' == q.(endFirst := false)
  {
    if ServeSees(cfg, p, sh, env, k).now >= RunServe(cfg, p, sh, env, k).0.deadline {
      DueIsShutDown(cfg, p, sh, env, n, k);
    } else {
      NotDueRun(cfg, p, sh, env, k);
      PollGoesOn(cfg, p, sh, env, n, k + 1);
      assert k + 2 == n;
    }
  }

  /** A poll of `accept` ends pending: the pause is not over, or the listener has nothing. */
  predicate AcceptIsPending(p: Serve, sh: Shared, r: ServeReply) {
    match p.backoff
    case Some(until) => sh.now < until
    case None => r.listen.ListenPending?
  }

  /**
   After `graceful_shutdown()` has returned, a poll of `accept` that ends pending, also in the pause
   after an error, leaves the accept loop; a connection that is ready is still taken first.
   */
  lemma GracefulLeavesTheLoop(cfg: Config, p: Serve, sh: Shared, env: ServeEnv, k: nat)
    requires Forward(env.others) && RunServe(cfg, p, sh, env, k).0.pc.LoopAccept?
    requires ServeSees(cfg, p, sh, env, k).graceful == Latch(true, true)
    ensures var q := RunServe(cfg, p, sh, env, k).0;
      if AcceptIsPending(q, ServeSees(cfg, p, sh, env, k), env.replies(k)) then
        RunServe(cfg, p, sh, env, k + 2).0 == q.(pc := EndLoad)
      else if q.backoff.None? && env.replies(k).listen.ListenOk? then
        RunServe(cfg, p, sh, env, k + 1).0.pc == LoopReady && RunServe(cfg, p, sh, env, k + 1).0.holding
      else
        RunServe(cfg, p, sh, env, k + 1).0.pc == LoopAccept
  {
    ServeOne(cfg, p, sh, env, k);
    if AcceptIsPending(RunServe(cfg, p, sh, env, k).0, ServeSees(cfg, p, sh, env, k), env.replies(k)) {
      ServeOne(cfg, p, sh, env, k + 1);
      var s1 := RunServe(cfg, p, sh, env, k + 1).1;
      assert s1.Before(env.others(k + 1, s1));
    }
  }

  /**
   A poll of the accept loop that starts after `shutdown()` has returned ends `serve` at once,
   wherever it is suspended.
   */
  lemma ShutdownStopsTheLoop(cfg: Config, p: Serve, sh: Shared, env: ServeEnv, n: nat)
    requires p.Resting() && p.pc.OuterShutdown? && n > 0
    requires env.others(0, sh).shutdown.finished
    ensures RunServe(cfg, p, sh, env, n).0.pc == Returned(StoppedAtOnce)
  {
    ServeOne(cfg, p, sh, env, 0);
    ReturnedStays(cfg, p, sh, env, 1, n);
  }

  /**
   When the task is spawned, or the make-service has failed, the loop starts over, at the listener and
   with a new waiter, which sees a graceful flag that is only stored.
   */
  lemma NextRoundSeesTheFlag(cfg: Config, p: Serve, sh: Shared, env: ServeEnv, k: nat)
    requires RunServe(cfg, p, sh, env, k).0.pc.LoopMake? && !env.replies(k).make.StepPending?
    ensures AsksListener(RunServe(cfg, p, sh, env, k + 1).0)
    ensures env.replies(k + 1).listen.ListenPending? && ServeSees(cfg, p, sh, env, k + 2).graceful.stored ==>
      RunServe(cfg, p, sh, env, k + 3).0.pc == EndLoad
  {
    ServeOne(cfg, p, sh, env, k);
    ServeOne(cfg, p, sh, env, k + 1);
    ServeOne(cfg, p, sh, env, k + 2);
  }

  // ---------------------------------------------------------------- what a parked serve waits for

  /** Waiters of `select!`s not entered yet are fresh, and a timer has its grace period, in every run from STARTED. */
  predicate Consistent(p: Serve) {
    && (p.pc.Binding? ==> p.outerFirst && p.spot.AtAccept?)
    && (p.pc.Accepting() || p.pc.EndLoad? || p.pc.EndLock? ==> p.endFirst)
    && (p.pc.EndTimer? ==> p.grace.Some?)
  }

  lemma PlainStaysConsistent(p: Serve, sh: Shared, r: ServeReply)
    requires Consistent(p) && !p.pc.Waiting() && !p.pc.LoopMake? && !p.pc.LoopAccept?
    ensures Consistent(PlainStep(p, sh, r))
  {
  }

  lemma StaysConsistent(cfg: Config, p: Serve, sh: Shared, r: ServeReply)
    requires Consistent(p)
    ensures Consistent(ServeStep(cfg, p, sh, r).0)
  {
    if p.pc.Waiting() {
      assert ServeStep(cfg, p, sh, r).0 == EndStep(p, sh).0;
    } else if !p.pc.LoopMake? && !p.pc.LoopAccept? {
      PlainStaysConsistent(p, sh, r);
    }
  }

  lemma {:induction false} RunStaysConsistent(cfg: Config, p: Serve, sh: Shared, env: ServeEnv, n: nat)
    requires Consistent(p)
    ensures Consistent(RunServe(cfg, p, sh, env, n).0)
  {
    if n > 0 {
      RunStaysConsistent(cfg, p, sh, env, n - 1);
      ServeOne(cfg, p, sh, env, n - 1);
      StaysConsistent(cfg, RunServe(cfg, p, sh, env, n - 1).0, ServeSees(cfg, p, sh, env, n - 1), env.replies(n - 1));
    }
  }

  /** The future that the next operation polls, the last of its `select!`, is pending. */
  predicate FindsPending(p: Serve, sh: Shared, r: ServeReply) {
    match p.pc
    case Binding => r.bind.StepPending?
    case LoopGraceful => !sh.graceful.Seen(p.loopFirst)
    case LoopReady => r.ready.StepPending?
    case LoopMake => r.make.StepPending?
    case EndLatch => !sh.connEnd.Seen(p.endFirst)
    case _ => false
  }

  /** `p'` is `p` parked: its waiters have been polled, and the next poll resumes where this one stopped. */
  predicate Parked(p: Serve, p': Serve) {
    match p.pc
    case LoopGraceful => p' == p.(pc := OuterShutdown, outerFirst := false, spot := AtAccept, loopFirst := false)
    case LoopReady => p' == p.(pc := OuterShutdown, outerFirst := false, spot := AtReady)
    case LoopMake => p' == p.(pc := OuterShutdown, outerFirst := false, spot := AtMake)
    case EndLatch => p' == p.(pc := if p.grace.Some? then EndTimer else EndLatch, endFirst := false)
    case _ => p' == p
  }

  lemma PlainParks(p: Serve, sh: Shared, r: ServeReply)
    requires Consistent(p) && !p.pc.Waiting() && !p.pc.LoopMake? && !p.pc.LoopAccept? && !p.pc.Returned?
    ensures var p' := PlainStep(p, sh, r);
      && (p'.Resting() && !p'.pc.Returned? <==> FindsPending(p, sh, r))
      && (FindsPending(p, sh, r) ==> Parked(p, p'))
  {
  }

  /** An operation lets `serve` rest, without a result, exactly when it finds its future pending. */
  lemma ParksIffPending(cfg: Config, p: Serve, sh: Shared, r: ServeReply)
    requires Consistent(p) && !p.pc.Returned?
    ensures var p' := ServeStep(cfg, p, sh, r).0;
      && (p'.Resting() && !p'.pc.Returned? <==> FindsPending(p, sh, r))
      && (FindsPending(p, sh, r) ==> Parked(p, p'))
  {
    if p.pc.Waiting() {
      assert ServeStep(cfg, p, sh, r).0 == EndStep(p, sh).0;
    } else if !p.pc.LoopMake? && !p.pc.LoopAccept? {
      PlainParks(p, sh, r);
    }
  }

  lemma PlainLooks(p: Serve, sh: Shared, r: ServeReply)
    requires !p.pc.Waiting() && !p.pc.LoopMake? && !p.pc.LoopAccept?
    ensures var p' := PlainStep(p, sh, r); !p'.pc.LoopGraceful? && !p'.pc.EndLatch?
  {
  }

  /** `serve` looks at a second future only after it has found the first one pending. */
  lemma LooksInOrder(cfg: Config, p: Serve, sh: Shared, r: ServeReply)
    ensures var p' := ServeStep(cfg, p, sh, r).0;
      && (p'.pc.LoopGraceful? ==> p.pc.LoopAccept? && AcceptIsPending(p, sh, r))
      && (p'.pc.EndLatch? && p'.grace.Some? ==> p.pc.EndTimer? && sh.now < p.deadline)
  {
    if p.pc.Waiting() {
      assert ServeStep(cfg, p, sh, r).0 == EndStep(p, sh).0;
    } else if !p.pc.LoopMake? && !p.pc.LoopAccept? {
      PlainLooks(p, sh, r);
    }
  }

  /** The first future of a two-branch `select!`, before its last one: the listener, or the timer. */
  predicate FirstFound(p: Serve, sh: Shared, r: ServeReply, last: Serve) {
    if last.pc.LoopGraceful? then p.pc.LoopAccept? && AcceptIsPending(p, sh, r)
    else p.pc.EndTimer? && sh.now < p.deadline
  }

  /** What a `serve` that has parked waits for was pending in the poll that parked it. */
  predicate ParkedPending(cfg: Config, p: Serve, sh: Shared, env: ServeEnv, n: nat)
    requires n > 0
  {
    var last := RunServe(cfg, p, sh, env, n - 1).0;
    && FindsPending(last, ServeSees(cfg, p, sh, env, n - 1), env.replies(n - 1))
    && Parked(last, RunServe(cfg, p, sh, env, n).0)
    && (last.pc.LoopGraceful? || (last.pc.EndLatch? && last.grace.Some?) ==>
         n > 1 && FirstFound(RunServe(cfg, p, sh, env, n - 2).0, ServeSees(cfg, p, sh, env, n - 2),
                             env.replies(n - 2), last))
  }

  /**
   A poll of `serve` parks only when it has found pending everything it waits for: the listener and the
   graceful latch, the make-service, or the timer and `conn_end`.
   */
  lemma ServeParksOnPending(cfg: Config, p: Serve, sh: Shared, env: ServeEnv, n: nat)
    requires p.Resting() && Consistent(p)
    requires ServePollEnds(cfg, p, sh, env, n) && !RunServe(cfg, p, sh, env, n).0.pc.Returned?
    ensures ParkedPending(cfg, p, sh, env, n)
  {
    ServeOne(cfg, p, sh, env, n - 1);
    RunStaysConsistent(cfg, p, sh, env, n - 1);
    var last := RunServe(cfg, p, sh, env, n - 1).0;
    assert !last.pc.Returned?;
    ParksIffPending(cfg, last, ServeSees(cfg, p, sh, env, n - 1), env.replies(n - 1));
    if n > 1 {
      ServeOne(cfg, p, sh, env, n - 2);
      LooksInOrder(cfg, RunServe(cfg, p, sh, env, n - 2).0, ServeSees(cfg, p, sh, env, n - 2), env.replies(n - 2));
    }
  }
}
