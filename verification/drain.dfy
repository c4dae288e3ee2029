/**
 Draining: a server that returns because its connections have ended has none in flight, exactly
 unless a slow dropper was overtaken; and a server that waits for its connections is always woken.
 */
module Drain {
  import opened Prelude
  import opened Latches
  import opened HandleModel
  import opened Connection
  import opened ServeModel
  import opened System

  predicate NoFlight(s: System) {
    forall i :: 0 <= i < |s.tasks| ==> !s.tasks[i].InFlight()
  }

  /** Once `conn_end` is latched, no handshake and no request is in progress. */
  predicate Sound(s: System) {
    s.sh.connEnd.stored ==> NoFlight(s)
  }

  /** Some dropper took the count to zero and has yet to check the flag, or is on its way to `conn_end`. */
  ghost predicate SomeDropper(s: System) {
    exists i :: 0 <= i < |s.tasks| && (s.tasks[i].Checking() || s.tasks[i].Ending())
  }

  /** `conn_end` is latched, or some dropper may be about to latch it. */
  ghost predicate EndNear(s: System) {
    s.sh.connEnd.stored || SomeDropper(s)
  }

  ghost predicate SoundInv(s: System) {
    s.sh.graceful.stored && !s.breach && EndNear(s) ==> NoFlight(s)
  }

  /** Behind a stored graceful latch the gate lets nobody through. */
  lemma GateHolds(cfg: Config, c: Conn, sh: Shared, r: Reply)
    requires sh.graceful.stored && !c.InFlight()
    ensures !Task(cfg, c, sh, r).0.InFlight()
  {
  }

  lemma NobodyCounted(s: System)
    requires CountInv(s) && s.sh.connCount == 0
    ensures forall i :: 0 <= i < |s.tasks| ==> !s.tasks[i].Counted()
    ensures NoFlight(s)
  {
    CountZero(s.tasks, COUNTED);
    forall i | 0 <= i < |s.tasks| ensures !s.tasks[i].Counted() {
      assert !COUNTED(s.tasks[i]);
    }
  }

  lemma TaskStepSound(cfg: Config, s: System, i: nat, r: Reply)
    requires Inv(cfg, s) && SoundInv(s) && Enabled(s, TaskStep(i, r))
    ensures SoundInv(Apply(cfg, s, TaskStep(i, r)))
  {
    var s' := Apply(cfg, s, TaskStep(i, r));
    TaskStepInv(cfg, s, i, r);
    TaskKeepsShared(cfg, s.tasks[i], s.sh, r);
    if s'.sh.graceful.stored && !s'.breach && EndNear(s') {
      if s'.tasks[i].Checking() {
        NobodyCounted(s');
      } else {
        NearBefore(cfg, s, i, r);
        GateHolds(cfg, s.tasks[i], s.sh, r);
      }
    }
  }

  lemma NearBefore(cfg: Config, s: System, i: nat, r: Reply)
    requires Enabled(s, TaskStep(i, r))
    requires EndNear(Apply(cfg, s, TaskStep(i, r))) && !Apply(cfg, s, TaskStep(i, r)).tasks[i].Checking()
    ensures EndNear(s)
  {
    var s' := Apply(cfg, s, TaskStep(i, r));
    TaskKeepsShared(cfg, s.tasks[i], s.sh, r);
    if s'.sh.connEnd.stored && !s.sh.connEnd.stored {
      assert s.tasks[i].Ending();
    } else if !s.sh.connEnd.stored {
      var j :| 0 <= j < |s'.tasks| && (s'.tasks[j].Checking() || s'.tasks[j].Ending());
      assert s.tasks[j].Checking() || s.tasks[j].Ending();
    }
  }

  lemma GracefulStoreSound(cfg: Config, s: System)
    requires Inv(cfg, s) && SoundInv(s) && Enabled(s, GracefulStore)
    ensures SoundInv(Apply(cfg, s, GracefulStore))
  {
    if !s.sh.graceful.stored && EndNear(s) {
      var i :| 0 <= i < |s.tasks| && (s.tasks[i].Checking() || s.tasks[i].Ending());
      assert DropperInv(s.sh, s.tasks[i]);
      assert SomeChecking(s.tasks);
    }
  }

  lemma OtherStepSound(cfg: Config, s: System, a: Action)
    requires Inv(cfg, s) && SoundInv(s) && Enabled(s, a) && !a.TaskStep? && !a.GracefulStore?
    ensures SoundInv(Apply(cfg, s, a))
  {
    var s' := Apply(cfg, s, a);
    if a.ServeStep? {
      ServeKeepsShared(cfg, s.serve, s.sh, a.answer);
    }
    if s'.sh.graceful.stored && !s'.breach && EndNear(s') {
      if !s.sh.connEnd.stored {
        var j :| 0 <= j < |s'.tasks| && (s'.tasks[j].Checking() || s'.tasks[j].Ending());
        assert s.tasks[j].Checking() || s.tasks[j].Ending();
      }
      assert NoFlight(s);
    }
  }

  lemma StepSound(cfg: Config, s: System, a: Action)
    requires Inv(cfg, s) && SoundInv(s) && Enabled(s, a)
    ensures SoundInv(Apply(cfg, s, a))
  {
    match a
    case TaskStep(i, r) => TaskStepSound(cfg, s, i, r);
    case GracefulStore => GracefulStoreSound(cfg, s);
    case _ => OtherStepSound(cfg, s, a);
  }

  /** `breach` is decided when the graceful latch is first stored and never changes after that. */
  lemma {:induction false} RunSound(cfg: Config, s: System, run: seq<Action>)
    requires Inv(cfg, s) && SoundInv(s) && ValidRun(cfg, s, run)
    ensures SoundInv(Exec(cfg, s, run))
    ensures s.sh.graceful.stored ==> Exec(cfg, s, run).breach == s.breach && Exec(cfg, s, run).sh.graceful.stored
    decreases |run|
  {
    if run != [] {
      StepSound(cfg, s, run[0]);
      StepInv(cfg, s, run[0]);
      if run[0].TaskStep? {
        TaskKeepsShared(cfg, s.tasks[run[0].i], s.sh, run[0].reply);
      } else if run[0].ServeStep? {
        ServeKeepsShared(cfg, s.serve, s.sh, run[0].answer);
      }
      RunSound(cfg, Apply(cfg, s, run[0]), run[1..]);
    }
  }

  /**
   Drain soundness: in every interleaving whose graceful latch was not stored between a dropper's
   zero and its check while a connection was in flight, `conn_end` latched means that every counted
   watcher belongs to a task at its gate, or already leaving, and so does a `serve` that returned by it.
   */
  lemma DrainSoundness(cfg: Config, run: seq<Action>)
    requires ValidRun(cfg, START, run)
    ensures var s := Exec(cfg, START, run);
      !s.breach ==>
        && Sound(s)
        && (s.serve.pc == Returned(Drained) ==> NoFlight(s))
        && (s.sh.connEnd.stored ==> forall i :: 0 <= i < |s.tasks| && s.tasks[i].Counted() ==>
             s.tasks[i].AtGate() || s.tasks[i].pc == Leaving(Subtract))
  {
    StartInv(cfg);
    RunInv(cfg, START, run);
    RunSound(cfg, START, run);
    var s := Exec(cfg, START, run);
    if !s.breach && s.sh.connEnd.stored {
      assert EndNear(s);
      assert NoFlight(s);
    }
  }

  /**
   Once `conn_end` is latched in such a run, in every continuation no acceptor and no HTTP future is
   polled again.
   */
  lemma NothingRunsAfterTheEnd(cfg: Config, before: seq<Action>, run: seq<Action>)
    requires ValidRun(cfg, START, before) && ValidRun(cfg, Exec(cfg, START, before), run)
    requires var s := Exec(cfg, START, before); !s.breach && s.sh.connEnd.stored
    ensures var t := Exec(cfg, Exec(cfg, START, before), run);
      forall i :: 0 <= i < |t.tasks| ==> !t.tasks[i].PollsAcceptor() && !t.tasks[i].PollsHttp()
  {
    StartInv(cfg);
    RunInv(cfg, START, before);
    RunSound(cfg, START, before);
    var s := Exec(cfg, START, before);
    RunSound(cfg, s, run);
    EndStays(cfg, s, run);
    var t := Exec(cfg, s, run);
    assert NoFlight(t);
    forall i | 0 <= i < |t.tasks| ensures !t.tasks[i].PollsAcceptor() && !t.tasks[i].PollsHttp() {
      assert !t.tasks[i].InFlight();
    }
  }

  lemma {:induction false} EndStays(cfg: Config, s: System, run: seq<Action>)
    requires ValidRun(cfg, s, run) && s.sh.connEnd.stored
    ensures Exec(cfg, s, run).sh.connEnd.stored
    decreases |run|
  {
    if run != [] {
      if run[0].TaskStep? {
        TaskKeepsShared(cfg, s.tasks[run[0].i], s.sh, run[0].reply);
      } else if run[0].ServeStep? {
        ServeKeepsShared(cfg, s.serve, s.sh, run[0].answer);
      }
      EndStays(cfg, Apply(cfg, s, run[0]), run[1..]);
    }
  }

  lemma SoundState(s: System)
    requires SoundInv(s) && s.sh.graceful.stored && !s.breach
    ensures Sound(s)
  {
    assert s.sh.connEnd.stored ==> EndNear(s);
  }

  const IDLE := Reply(AcceptPending, HttpReply(false, false, false))

  /** The overtaken dropper now reads the flag as up, and latches `conn_end` over a live connection. */
  lemma OvertakenDropperBreaks(cfg: Config, s: System, i: nat, j: nat)
    requires Inv(cfg, s) && s.sh.graceful.stored
    requires i < |s.tasks| && s.tasks[i].Checking() && j < |s.tasks| && s.tasks[j].InFlight()
    ensures ValidRun(cfg, s, [TaskStep(i, IDLE)] + [TaskStep(i, IDLE)])
    ensures !Sound(Exec(cfg, s, [TaskStep(i, IDLE)] + [TaskStep(i, IDLE)]))
  {
    var s1 := Apply(cfg, s, TaskStep(i, IDLE));
    var s2 := Apply(cfg, s1, TaskStep(i, IDLE));
    assert s1.tasks[i].pc == Leaving(StoreEnd);
    RunOn(cfg, s1, TaskStep(i, IDLE), []);
    RunOn(cfg, s, TaskStep(i, IDLE), [TaskStep(i, IDLE)]);
    assert s2.tasks[j].InFlight() && s2.sh.connEnd.stored;
  }

  lemma StoreIsExact(cfg: Config, s: System)
    requires Inv(cfg, s) && SoundInv(s) && !s.sh.graceful.stored && Enabled(s, GracefulStore)
    ensures var g := Apply(cfg, s, GracefulStore);
      (forall run :: ValidRun(cfg, g, run) ==> Sound(Exec(cfg, g, run)))
      <==> !(SomeChecking(s.tasks) && SomeInFlight(s.tasks))
  {
    var g := Apply(cfg, s, GracefulStore);
    StepInv(cfg, s, GracefulStore);
    if SomeChecking(s.tasks) && SomeInFlight(s.tasks) {
      var i :| 0 <= i < |s.tasks| && s.tasks[i].Checking();
      var j :| 0 <= j < |s.tasks| && s.tasks[j].InFlight();
      OvertakenDropperBreaks(cfg, g, i, j);
      assert !Sound(Exec(cfg, g, [TaskStep(i, IDLE)] + [TaskStep(i, IDLE)]));
    } else {
      StepSound(cfg, s, GracefulStore);
      forall run | ValidRun(cfg, g, run) ensures Sound(Exec(cfg, g, run)) {
        RunSound(cfg, g, run);
        SoundState(Exec(cfg, g, run));
      }
    }
  }

  /**
   The exact condition. From any reachable state, the first store of the graceful latch is followed
   only by sound states if and only if, at that instant, there is not both a dropper between its
   `fetch_sub` to zero and its check of the flag and a connection in flight.
   */
  lemma DrainSoundnessIsExact(cfg: Config, before: seq<Action>)
    requires ValidRun(cfg, START, before)
    requires var s := Exec(cfg, START, before); !s.sh.graceful.stored && Enabled(s, GracefulStore)
    ensures var s := Exec(cfg, START, before);
      var g := Apply(cfg, s, GracefulStore);
      (forall run :: ValidRun(cfg, g, run) ==> Sound(Exec(cfg, g, run)))
      <==> !(SomeChecking(s.tasks) && SomeInFlight(s.tasks))
  {
    StartInv(cfg);
    RunInv(cfg, START, before);
    RunSound(cfg, START, before);
    StoreIsExact(cfg, Exec(cfg, START, before));
  }

  // ---------------------------------------------------------------- returning over a live connection

  /** `serve` has returned because its connections were said to have ended, and one is in flight. */
  predicate ReturnedOverFlight(s: System) {
    s.serve.pc == Returned(Drained) && SomeInFlight(s.tasks)
  }

  /**
   `serve` is binding or in its accept loop, and not at a point where it must first look at a
   shutdown that is up.
   */
  predicate CanLeaveLoop(p: Serve, sh: Shared) {
    p.pc.Accepting() && (p.pc.Binding? || p.pc.OuterShutdown? ==> !sh.shutdown.Seen(p.outerFirst))
  }

  /** `serve` can no longer return through `wait_connections_end`. */
  predicate NeverDrains(s: System) {
    || (s.serve.pc.Returned? && !s.serve.pc.outcome.Drained?)
    || ((s.serve.pc.Binding? || s.serve.pc.OuterShutdown?) && s.sh.shutdown.Seen(s.serve.outerFirst))
  }

  lemma StepNeverDrains(cfg: Config, s: System, a: Action)
    requires Enabled(s, a) && NeverDrains(s)
    ensures NeverDrains(Apply(cfg, s, a))
  {
    match a
    case TaskStep(i, r) => TaskKeepsShared(cfg, s.tasks[i], s.sh, r);
    case ServeStep(r) => assert ServeModel.ServeStep(cfg, s.serve, s.sh, r) == (PlainStep(s.serve, s.sh, r), s.sh);
    case _ =>
  }

  lemma {:induction false} RunNeverDrains(cfg: Config, s: System, run: seq<Action>)
    requires ValidRun(cfg, s, run) && NeverDrains(s)
    ensures NeverDrains(Exec(cfg, s, run))
    decreases |run|
  {
    if run != [] {
      StepNeverDrains(cfg, s, run[0]);
      RunNeverDrains(cfg, Apply(cfg, s, run[0]), run[1..]);
    }
  }

  /** Both latches are finished, no grace period is set, and connection `j` is in flight and counted. */
  predicate Overtaken(s: System, j: nat) {
    && s.sh.graceful == Latch(true, true) && s.sh.connEnd == Latch(true, true) && s.sh.gracefulDur.None?
    && s.sh.connCount != 0 && j < |s.tasks| && s.tasks[j].InFlight()
  }

  /** A listener with nothing to accept, a make-service that fails. */
  const QUIET := ServeReply(StepOk, ListenPending, StepOk, StepErr)

  lemma LockReturns(cfg: Config, g: System, s: System, j: nat)
    requires Reaches(cfg, g, s) && Overtaken(s, j) && s.serve.pc.EndLock?
    ensures exists t :: Reaches(cfg, g, t) && ReturnedOverFlight(t)
  {
    var t := Next(cfg, g, s, ServeStep(QUIET));
    t := Next(cfg, g, t, ServeStep(QUIET));
    assert t.tasks[j].InFlight();
  }

  lemma WaitReturns(cfg: Config, g: System, s: System, j: nat)
    requires Reaches(cfg, g, s) && Overtaken(s, j) && s.serve.pc.LoopGraceful?
    ensures exists t :: Reaches(cfg, g, t) && ReturnedOverFlight(t)
  {
    var t := Next(cfg, g, s, ServeStep(QUIET));
    t := Next(cfg, g, t, ServeStep(QUIET));
    LockReturns(cfg, g, t, j);
  }

  lemma AcceptReturns(cfg: Config, g: System, s: System, j: nat)
    requires Reaches(cfg, g, s) && Overtaken(s, j) && s.serve.pc.LoopAccept?
    ensures exists t :: Reaches(cfg, g, t) && ReturnedOverFlight(t)
  {
    var t := Next(cfg, g, s, ServeStep(QUIET));
    if t.serve.pc.LoopAccept? {
      assert t.serve.backoff.None? && Overtaken(t, j);
      t := Next(cfg, g, t, ServeStep(QUIET));
    }
    WaitReturns(cfg, g, t, j);
  }

  lemma LoopReturns(cfg: Config, g: System, s: System, j: nat)
    requires Reaches(cfg, g, s) && Overtaken(s, j)
    requires s.serve.pc.LoopAccept? || s.serve.pc.LoopGraceful? || s.serve.pc.LoopReady? || s.serve.pc.LoopMake?
    ensures exists t :: Reaches(cfg, g, t) && ReturnedOverFlight(t)
  {
    if s.serve.pc.LoopGraceful? {
      WaitReturns(cfg, g, s, j);
    } else {
      var t := s;
      if t.serve.pc.LoopReady? {
        t := Next(cfg, g, t, ServeStep(QUIET));
      }
      if t.serve.pc.LoopMake? {
        t := Next(cfg, g, t, ServeStep(QUIET));
      }
      AcceptReturns(cfg, g, t, j);
    }
  }

  lemma ServeReturns(cfg: Config, g: System, s: System, j: nat)
    requires Reaches(cfg, g, s) && Overtaken(s, j) && CanLeaveLoop(s.serve, s.sh)
    ensures exists t :: Reaches(cfg, g, t) && ReturnedOverFlight(t)
  {
    var t := s;
    if t.serve.pc.Binding? {
      t := Next(cfg, g, t, ServeStep(QUIET));
    }
    if t.serve.pc.OuterShutdown? {
      t := Next(cfg, g, t, ServeStep(QUIET));
    }
    LoopReturns(cfg, g, t, j);
  }

  /** The overtaken dropper finishes `conn_end`, and `serve` goes on to return. */
  lemma OvertakenReturns(cfg: Config, g: System, i: nat, j: nat)
    requires Inv(cfg, g) && g.sh.graceful.stored && CanLeaveLoop(g.serve, g.sh)
    requires i < |g.tasks| && g.tasks[i].Checking() && j < |g.tasks| && g.tasks[j].InFlight()
    ensures exists t :: Reaches(cfg, g, t) && ReturnedOverFlight(t)
  {
    assert ValidRun(cfg, g, []) && Exec(cfg, g, []) == g;
    var t := Next(cfg, g, g, SetGrace(None));
    t := Next(cfg, g, t, GracefulBroadcast);
    CountZero(g.tasks, COUNTED);
    assert COUNTED(g.tasks[j]);
    DropperLatches(cfg, g, t, i, j);
  }

  lemma DropperLatches(cfg: Config, g: System, s: System, i: nat, j: nat)
    requires Reaches(cfg, g, s) && CanLeaveLoop(s.serve, s.sh) && s.sh.connCount != 0
    requires s.sh.graceful == Latch(true, true) && s.sh.gracefulDur.None?
    requires i < |s.tasks| && s.tasks[i].Checking() && j < |s.tasks| && s.tasks[j].InFlight()
    ensures exists t :: Reaches(cfg, g, t) && ReturnedOverFlight(t)
  {
    var t := Next(cfg, g, s, TaskStep(i, IDLE));
    t := Next(cfg, g, t, TaskStep(i, IDLE));
    t := Next(cfg, g, t, TaskStep(i, IDLE));
    ServeReturns(cfg, g, t, j);
  }

  lemma ReturnedOverFlightOnly(cfg: Config, before: seq<Action>, t: System)
    requires ValidRun(cfg, START, before)
    requires var s := Exec(cfg, START, before); !s.sh.graceful.stored && Enabled(s, GracefulStore)
    requires Reaches(cfg, Apply(cfg, Exec(cfg, START, before), GracefulStore), t) && ReturnedOverFlight(t)
    ensures var s := Exec(cfg, START, before);
      SomeChecking(s.tasks) && SomeInFlight(s.tasks) && CanLeaveLoop(s.serve, s.sh)
  {
    StartInv(cfg);
    RunInv(cfg, START, before);
    var s := Exec(cfg, START, before);
    var g := Apply(cfg, s, GracefulStore);
    StepInv(cfg, s, GracefulStore);
    var run :| ValidRun(cfg, g, run) && Exec(cfg, g, run) == t;
    RunInv(cfg, g, run);
    assert !Sound(Exec(cfg, g, run));
    DrainSoundnessIsExact(cfg, before);
    if !CanLeaveLoop(s.serve, s.sh) {
      RunNeverDrains(cfg, g, run);
    }
  }

  /**
   The exact condition for `serve` itself. From any reachable state, some continuation of the first
   store of the graceful latch has `serve` return through `conn_end` over a live connection if and only
   if, at that instant, an overtaken dropper and a connection in flight both exist and `serve` can
   still leave its accept loop.
   */
  lemma DrainedReturnIsExact(cfg: Config, before: seq<Action>)
    requires ValidRun(cfg, START, before)
    requires var s := Exec(cfg, START, before); !s.sh.graceful.stored && Enabled(s, GracefulStore)
    ensures var s := Exec(cfg, START, before);
      var g := Apply(cfg, s, GracefulStore);
      (exists t :: Reaches(cfg, g, t) && ReturnedOverFlight(t))
      <==> SomeChecking(s.tasks) && SomeInFlight(s.tasks) && CanLeaveLoop(s.serve, s.sh)
  {
    StartInv(cfg);
    RunInv(cfg, START, before);
    var s := Exec(cfg, START, before);
    var g := Apply(cfg, s, GracefulStore);
    if SomeChecking(s.tasks) && SomeInFlight(s.tasks) && CanLeaveLoop(s.serve, s.sh) {
      StepInv(cfg, s, GracefulStore);
      var i :| 0 <= i < |s.tasks| && s.tasks[i].Checking();
      var j :| 0 <= j < |s.tasks| && s.tasks[j].InFlight();
      OvertakenReturns(cfg, g, i, j);
    }
    if t :| Reaches(cfg, g, t) && ReturnedOverFlight(t) {
      ReturnedOverFlightOnly(cfg, before, t);
    }
  }

  /** A run of the server that latches `conn_end`, and returns by it, over a live connection. */
  predicate Breaks(cfg: Config, run: seq<Action>) {
    && ValidRun(cfg, START, run)
    && !Sound(Exec(cfg, START, run)) && ReturnedOverFlight(Exec(cfg, START, run))
  }

  /**
   The breaking run: a dropper takes the count to zero, a new connection passes its gate, the graceful
   latch is stored, the old dropper latches `conn_end`, and `serve` returns with that connection in flight.
   */
  lemma UnsoundRunExists(cfg: Config)
    ensures exists run :: Breaks(cfg, run)
  {
    assert ValidRun(cfg, START, []) && Exec(cfg, START, []) == START;
    var s := Next(cfg, START, START, ServeStep(BUSY));
    s := Next(cfg, START, s, ServeStep(BUSY));
    s := TakeConnection(cfg, START, s);
    s := PassGate(cfg, START, s, 0);
    s := Next(cfg, START, s, TaskStep(0, REFUSE));
    s := Next(cfg, START, s, TaskStep(0, REFUSE));
    SecondConnection(cfg, s);
  }

  lemma SecondConnection(cfg: Config, s: System)
    requires Reaches(cfg, START, s) && s.serve.pc.LoopAccept? && s.serve.backoff.None?
    requires |s.tasks| == 1 && s.tasks[0].Checking() && !s.sh.shutdown.stored && !s.sh.graceful.stored
    ensures exists run :: Breaks(cfg, run)
  {
    var t := TakeConnection(cfg, START, s);
    t := PassGate(cfg, START, t, 1);
    t := Next(cfg, START, t, SetGrace(None));
    assert t.tasks[0].Checking() && t.tasks[1].InFlight();
    OvertakenEnds(cfg, t);
  }

  lemma OvertakenEnds(cfg: Config, s: System)
    requires Reaches(cfg, START, s) && Enabled(s, GracefulStore) && !s.sh.graceful.stored
    requires SomeChecking(s.tasks) && SomeInFlight(s.tasks) && CanLeaveLoop(s.serve, s.sh)
    ensures exists run :: Breaks(cfg, run)
  {
    var before :| ValidRun(cfg, START, before) && Exec(cfg, START, before) == s;
    DrainedReturnIsExact(cfg, before);
    var g := Next(cfg, START, s, GracefulStore);
    var t :| Reaches(cfg, g, t) && ReturnedOverFlight(t);
    ReachesOn(cfg, START, g, t);
    var run :| ValidRun(cfg, START, run) && Exec(cfg, START, run) == t;
    StartInv(cfg);
    RunInv(cfg, START, run);
    assert Breaks(cfg, run);
  }

  // ---------------------------------------------------------------- an atomic drop

  /**
   A run in which the check of a dropper at zero directly follows its `fetch_sub`, as if the drop
   were one operation.
   */
  ghost predicate DropsAreAtomic(cfg: Config, s: System, run: seq<Action>)
    requires ValidRun(cfg, s, run)
    decreases |run|
  {
    run == [] ||
    ((forall i :: 0 <= i < |s.tasks| && s.tasks[i].Checking() ==> run[0].TaskStep? && run[0].i == i)
     && DropsAreAtomic(cfg, Apply(cfg, s, run[0]), run[1..]))
  }

  lemma {:induction false} AtomicDropsAreNotOvertaken(cfg: Config, s: System, run: seq<Action>)
    requires ValidRun(cfg, s, run) && DropsAreAtomic(cfg, s, run) && !s.breach
    ensures !Exec(cfg, s, run).breach
    decreases |run|
  {
    if run != [] {
      AtomicDropsAreNotOvertaken(cfg, Apply(cfg, s, run[0]), run[1..]);
    }
  }

  /** With an atomic drop, drain soundness holds without a condition. */
  lemma AtomicDropDrainSoundness(cfg: Config, run: seq<Action>)
    requires ValidRun(cfg, START, run) && DropsAreAtomic(cfg, START, run)
    ensures Sound(Exec(cfg, START, run))
    ensures Exec(cfg, START, run).serve.pc == Returned(Drained) ==> NoFlight(Exec(cfg, START, run))
  {
    AtomicDropsAreNotOvertaken(cfg, START, run);
    DrainSoundness(cfg, run);
  }

  // ---------------------------------------------------------------- the wait is always ended

  /** Some watcher is still counted. */
  ghost predicate SomeCounted(s: System) {
    exists i :: 0 <= i < |s.tasks| && s.tasks[i].Counted()
  }

  /** A waiting `serve` has somebody left to wake it; one that found no connections was right. */
  ghost predicate WakeInv(s: System) {
    && (s.serve.pc.Waiting() ==> s.sh.connEnd.finished || SomeCounted(s) || SomeDropper(s))
    && (s.serve.pc == Returned(NoConnections) ==> s.sh.connCount == 0)
  }

  lemma CountedWitness(s: System)
    requires CountInv(s) && s.sh.connCount != 0
    ensures SomeCounted(s)
  {
    CountZero(s.tasks, COUNTED);
    var i :| 0 <= i < |s.tasks| && COUNTED(s.tasks[i]);
    assert s.tasks[i].Counted();
  }

  lemma TaskStepWakes(cfg: Config, s: System, i: nat, r: Reply)
    requires Inv(cfg, s) && WakeInv(s) && Enabled(s, TaskStep(i, r)) && s.serve.pc.Waiting()
    ensures WakeInv(Apply(cfg, s, TaskStep(i, r)))
  {
    var s' := Apply(cfg, s, TaskStep(i, r));
    TaskStepInv(cfg, s, i, r);
    TaskKeepsShared(cfg, s.tasks[i], s.sh, r);
    if s'.sh.connCount != 0 {
      CountedWitness(s');
    } else if !s.sh.connEnd.finished {
      NobodyCounted(s');
      if s.tasks[i].Counted() {
        assert s'.tasks[i].Checking();
      } else if !(s.tasks[i].Checking() || s.tasks[i].Ending()) {
        assert false;
      } else if s.tasks[i].pc != Leaving(BroadcastEnd) {
        assert s'.tasks[i].Ending();
      }
    }
  }

  lemma PlainWaitBegins(p: Serve, sh: Shared, r: ServeReply)
    requires !p.pc.Waiting() && !p.pc.LoopMake? && !p.pc.LoopAccept?
    ensures var p' := PlainStep(p, sh, r);
      && (p'.pc.Waiting() ==> p.pc.EndLoad? && sh.connCount != 0)
      && (p'.pc == Returned(NoConnections) && p.pc != p'.pc ==> p.pc.EndLoad? && sh.connCount == 0)
  {
    if p.pc.Accepting() {
      var p' := PlainStep(p, sh, r);
      assert p'.pc.Accepting() || p'.pc.EndLoad?
        || p'.pc in [Returned(BindFailed), Returned(ReadyFailed), Returned(StoppedAtOnce)];
    }
  }

  /** Waiting begins with a non-zero count, and not waiting at all with a zero one. */
  lemma WaitBegins(cfg: Config, p: Serve, sh: Shared, r: ServeReply)
    ensures var (p', sh') := ServeModel.ServeStep(cfg, p, sh, r);
      && (p'.pc.Waiting() && !p.pc.Waiting() ==> p.pc.EndLoad? && sh.connCount != 0)
      && (p'.pc == Returned(NoConnections) && p.pc != p'.pc ==> p.pc.EndLoad? && sh.connCount == 0)
  {
    if p.pc.LoopAccept? || p.pc.LoopMake? {
      assert !p.pc.Waiting();
    } else if p.pc.Waiting() {
      assert EndStep(p, sh).0.pc != Returned(NoConnections);
    } else {
      PlainWaitBegins(p, sh, r);
    }
  }

  lemma ServeStepWakes(cfg: Config, s: System, r: ServeReply)
    requires Inv(cfg, s) && WakeInv(s) && Enabled(s, ServeStep(r))
    ensures WakeInv(Apply(cfg, s, ServeStep(r)))
  {
    var s' := Apply(cfg, s, ServeStep(r));
    ServeKeepsShared(cfg, s.serve, s.sh, r);
    WaitBegins(cfg, s.serve, s.sh, r);
    if s'.serve.pc.Waiting() {
      assert s'.tasks == s.tasks && s'.sh.connEnd == s.sh.connEnd;
      if !s.serve.pc.Waiting() {
        CountedWitness(s);
      }
    }
  }

  lemma OtherStepWakes(cfg: Config, s: System, a: Action)
    requires WakeInv(s) && Enabled(s, a) && !a.TaskStep? && !a.ServeStep?
    ensures WakeInv(Apply(cfg, s, a))
  {
    var s' := Apply(cfg, s, a);
    if a.Unwind? {
      assert s'.tasks[a.i].Counted();
    } else {
      assert s'.tasks == s.tasks;
    }
  }

  lemma StepWakes(cfg: Config, s: System, a: Action)
    requires Inv(cfg, s) && WakeInv(s) && Enabled(s, a)
    ensures WakeInv(Apply(cfg, s, a))
  {
    match a
    case TaskStep(i, r) =>
      if s.serve.pc.Waiting() {
        TaskStepWakes(cfg, s, i, r);
      } else {
        StepInv(cfg, s, a);
        TaskKeepsShared(cfg, s.tasks[i], s.sh, r);
      }
    case ServeStep(r) => ServeStepWakes(cfg, s, r);
    case _ => OtherStepWakes(cfg, s, a);
  }

  lemma {:induction false} RunWakes(cfg: Config, s: System, run: seq<Action>)
    requires Inv(cfg, s) && WakeInv(s) && ValidRun(cfg, s, run)
    ensures WakeInv(Exec(cfg, s, run))
    decreases |run|
  {
    if run != [] {
      StepWakes(cfg, s, run[0]);
      StepInv(cfg, s, run[0]);
      RunWakes(cfg, Apply(cfg, s, run[0]), run[1..]);
    }
  }

  /**
   Draining never hangs: whenever `serve` waits for its connections, `conn_end` has been broadcast,
   or a watcher is still counted, or a dropper at zero is on its way, and the flag it checks reads
   true. And a `serve` that did not wait had nobody left to wait for.
   */
  lemma DrainNeverHangs(cfg: Config, run: seq<Action>)
    requires ValidRun(cfg, START, run)
    ensures var s := Exec(cfg, START, run);
      && (s.serve.pc.Waiting() ==>
           && s.sh.graceful.stored
           && (s.sh.connEnd.finished || SomeCounted(s) || SomeDropper(s)))
      && (s.serve.pc == Returned(NoConnections) ==> NoFlight(s) && !SomeCounted(s))
  {
    StartInv(cfg);
    RunInv(cfg, START, run);
    RunWakes(cfg, START, run);
    var s := Exec(cfg, START, run);
    if s.serve.pc == Returned(NoConnections) {
      NobodyCounted(s);
    }
  }

  /** Each operation of such a dropper brings the broadcast nearer, and its last one is the broadcast. */
  lemma DropperDelivers(cfg: Config, s: System, i: nat, r: Reply)
    requires i < |s.tasks| && (s.tasks[i].Checking() || s.tasks[i].Ending()) && s.sh.graceful.stored
    ensures var s' := Apply(cfg, s, TaskStep(i, r));
      s'.sh.connEnd.finished || (s'.tasks[i].Ending() && Rank(s'.tasks[i]) < Rank(s.tasks[i]))
  {
  }
}
