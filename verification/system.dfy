/**
 The whole server: `serve`, every task it has spawned, and any number of user calls of `shutdown`
 and `graceful_shutdown`, interleaved one atomic operation at a time.
 */
module System {
  import opened Prelude
  import opened Latches
  import opened HandleModel
  import opened Connection
  import opened ServeModel

  /**
   `tasks` lists every connection task ever spawned, in order. `breach` records whether, at the
   instant the graceful latch was first stored, some dropper that had taken the count to zero had
   yet to look at the flag while some connection was in flight.
   */
  datatype System = System(sh: Shared, serve: Serve, tasks: seq<Conn>, breach: bool)

  const START := System(FRESH, STARTED, [], false)

  datatype Action =
    | Tick
    | ShutdownStore
    | ShutdownBroadcast
    | SetGrace(grace: Grace)
    | GracefulStore
    | GracefulBroadcast
    | TaskStep(i: nat, reply: Reply)
    | Unwind(i: nat)
    | ServeStep(answer: ServeReply)
    | CancelServe

  /**
   A call of `graceful_shutdown` writes its duration first, and every broadcast follows a store of
   the same call.
   */
  predicate Enabled(s: System, a: Action) {
    match a
    case ShutdownBroadcast => s.sh.shutdown.stored
    case GracefulStore => s.sh.graces != []
    case GracefulBroadcast => s.sh.graceful.stored
    case TaskStep(i, _) => i < |s.tasks| && !s.tasks[i].Done()
    case Unwind(i) => i < |s.tasks| && !s.tasks[i].pc.Leaving?
    case ServeStep(_) => !s.serve.pc.Returned?
    case CancelServe => s.serve.Resting() && !s.serve.pc.Returned?
    case _ => true
  }

  predicate SomeChecking(tasks: seq<Conn>) {
    exists i :: 0 <= i < |tasks| && tasks[i].Checking()
  }

  predicate SomeInFlight(tasks: seq<Conn>) {
    exists i :: 0 <= i < |tasks| && tasks[i].InFlight()
  }

  /** `Unwind` is a panic in a task, or its abort by the runtime: the body is dropped and then the watcher. */
  function Apply(cfg: Config, s: System, a: Action): System
    requires Enabled(s, a)
  {
    match a
    case Tick => s.(sh := s.sh.(now := s.sh.now + 1))
    case ShutdownStore => s.(sh := s.sh.(shutdown := s.sh.shutdown.Store()))
    case ShutdownBroadcast => s.(sh := s.sh.(shutdown := s.sh.shutdown.Broadcast()))
    case SetGrace(d) => s.(sh := s.sh.SetGrace(d))
    case GracefulStore =>
      s.(sh := s.sh.(graceful := s.sh.graceful.Store()),
         breach := if s.sh.graceful.stored then s.breach else SomeChecking(s.tasks) && SomeInFlight(s.tasks))
    case GracefulBroadcast => s.(sh := s.sh.(graceful := s.sh.graceful.Broadcast()))
    case TaskStep(i, r) =>
      var (c, sh) := Task(cfg, s.tasks[i], s.sh, r);
      s.(sh := sh, tasks := s.tasks[i := c])
    case Unwind(i) => s.(tasks := s.tasks[i := s.tasks[i].Leave(Unwound)])
    case ServeStep(r) =>
      var (p, sh) := ServeModel.ServeStep(cfg, s.serve, s.sh, r);
      s.(sh := sh, serve := p,
         tasks := if p.spawned > s.serve.spawned then s.tasks + [SPAWNED] else s.tasks)
    case CancelServe => s.(serve := s.serve.Return(Cancelled))
  }

  predicate ValidRun(cfg: Config, s: System, run: seq<Action>)
    decreases |run|
  {
    run == [] || (Enabled(s, run[0]) && ValidRun(cfg, Apply(cfg, s, run[0]), run[1..]))
  }

  function Exec(cfg: Config, s: System, run: seq<Action>): System
    requires ValidRun(cfg, s, run)
    decreases |run|
  {
    if run == [] then s else Exec(cfg, Apply(cfg, s, run[0]), run[1..])
  }

  lemma RunOn(cfg: Config, s: System, a: Action, run: seq<Action>)
    requires Enabled(s, a) && ValidRun(cfg, Apply(cfg, s, a), run)
    ensures ValidRun(cfg, s, [a] + run)
    ensures Exec(cfg, s, [a] + run) == Exec(cfg, Apply(cfg, s, a), run)
  {
    assert ([a] + run)[1..] == run;
  }

  lemma {:induction false} RunAppends(cfg: Config, s: System, run1: seq<Action>, run2: seq<Action>)
    requires ValidRun(cfg, s, run1) && ValidRun(cfg, Exec(cfg, s, run1), run2)
    ensures ValidRun(cfg, s, run1 + run2)
    ensures Exec(cfg, s, run1 + run2) == Exec(cfg, Exec(cfg, s, run1), run2)
    decreases |run1|
  {
    if run1 == [] {
      assert run1 + run2 == run2;
    } else {
      RunAppends(cfg, Apply(cfg, s, run1[0]), run1[1..], run2);
      RunOn(cfg, s, run1[0], run1[1..] + run2);
      assert run1 + run2 == [run1[0]] + (run1[1..] + run2);
    }
  }

  // ---------------------------------------------------------------- counting tasks

  function Count(tasks: seq<Conn>, p: Conn -> bool): nat {
    if tasks == [] then 0
    else Count(tasks[..|tasks| - 1], p) + (if p(tasks[|tasks| - 1]) then 1 else 0)
  }

  const COUNTED := (c: Conn) => c.Counted()
  const FAILED := (c: Conn) => c.exit == AcceptFailed

  lemma {:induction false} CountUpdate(tasks: seq<Conn>, p: Conn -> bool, i: nat, c: Conn)
    requires i < |tasks|
    ensures Count(tasks[i := c], p) + (if p(tasks[i]) then 1 else 0) == Count(tasks, p) + (if p(c) then 1 else 0)
    decreases |tasks|
  {
    var n := |tasks| - 1;
    if i < n {
      CountUpdate(tasks[..n], p, i, c);
      assert tasks[i := c][..n] == tasks[..n][i := c];
    } else {
      assert tasks[i := c][..n] == tasks[..n];
    }
  }

  lemma CountAppend(tasks: seq<Conn>, p: Conn -> bool, c: Conn)
    ensures Count(tasks + [c], p) == Count(tasks, p) + (if p(c) then 1 else 0)
  {
    assert (tasks + [c])[..|tasks|] == tasks;
  }

  lemma {:induction false} CountZero(tasks: seq<Conn>, p: Conn -> bool)
    ensures Count(tasks, p) == 0 <==> forall i :: 0 <= i < |tasks| ==> !p(tasks[i])
    decreases |tasks|
  {
    if tasks != [] {
      var n := |tasks| - 1;
      CountZero(tasks[..n], p);
      assert forall i :: 0 <= i < n ==> tasks[..n][i] == tasks[i];
    }
  }

  // ---------------------------------------------------------------- the basic invariants

  /** `conn_count` is the number of watchers whose drop has not done its `fetch_sub`. */
  ghost predicate CountInv(s: System) {
    s.sh.connCount == Count(s.tasks, COUNTED) && |s.tasks| == s.serve.spawned
  }

  function LastGrace(graces: seq<Grace>): Grace {
    if graces == [] then None else graces[|graces| - 1]
  }

  /** Latches are stored before they are broadcast, and only for a reason. */
  ghost predicate LatchInv(s: System) {
    && s.sh.shutdown.Valid() && s.sh.graceful.Valid() && s.sh.connEnd.Valid()
    && (s.sh.connEnd.stored ==> s.sh.graceful.stored)
    && (s.sh.graceful.stored ==> s.sh.graces != [])
    && s.sh.gracefulDur == LastGrace(s.sh.graces)
    && forall i :: 0 <= i < |s.tasks| ==> DropperInv(s.sh, s.tasks[i])
  }

  ghost predicate DropperInv(sh: Shared, c: Conn) {
    && (c.Ending() ==> sh.graceful.stored)
    && (c.pc == Leaving(BroadcastEnd) ==> sh.connEnd.stored)
  }

  /** `serve` is where its latches let it be, and the grace period it waits under was given to some call. */
  ghost predicate PlaceInv(p: Serve, sh: Shared) {
    && (p.pc.PastLoop() ==> sh.graceful.stored)
    && (p.pc == Returned(StoppedAtOnce) ==> sh.shutdown.stored)
    && (p.pc == Returned(Drained) ==> sh.connEnd.stored)
    && (p.pc.EndTimer? ==> p.grace.Some?)
    && (p.pc.EndStore? || p.pc.EndBroadcast? || p.pc == Returned(OutOfTime) ==> p.grace.Some? && p.deadline <= sh.now)
    && (p.pc.EndBroadcast? ==> sh.shutdown.stored)
    && (p.pc == Returned(OutOfTime) ==> sh.shutdown == Latch(true, true))
    && (p.pc.EndTimer? || p.pc.EndLatch? || p.pc.EndStore? || p.pc.EndBroadcast? ==> p.grace in sh.graces)
  }

  ghost predicate ServeInv(s: System) {
    PlaceInv(s.serve, s.sh)
  }

  /** Every task has done what its stage says. */
  ghost predicate TasksInv(cfg: Config, s: System) {
    forall i :: 0 <= i < |s.tasks| ==> Conforms(cfg, s.tasks[i], s.sh.now)
  }

  ghost predicate Inv(cfg: Config, s: System) {
    CountInv(s) && LatchInv(s) && ServeInv(s) && TasksInv(cfg, s)
  }

  lemma StartInv(cfg: Config)
    ensures Inv(cfg, START)
  {
  }

  lemma BodyKeepsShared(cfg: Config, c: Conn, sh: Shared, r: Reply)
    requires !c.pc.Leaving?
    ensures var (c', sh') := Task(cfg, c, sh, r);
      && sh' == sh.(reports := sh'.reports)
      && c'.Counted() && !c'.Ending() && !c'.Checking()
  {
  }

  lemma TaskKeepsShared(cfg: Config, c: Conn, sh: Shared, r: Reply)
    ensures var (c', sh') := Task(cfg, c, sh, r);
      && sh' == sh.(connCount := sh'.connCount, connEnd := sh'.connEnd, reports := sh'.reports)
      && sh'.connCount == sh.connCount - (if c.Counted() && !c'.Counted() then 1 else 0)
      && (c'.Counted() ==> c.Counted())
      && sh'.connEnd == (if c.pc == Leaving(StoreEnd) then sh.connEnd.Store()
                         else if c.pc == Leaving(BroadcastEnd) then sh.connEnd.Broadcast()
                         else sh.connEnd)
      && (c'.Ending() ==> c.Ending() || (c.Checking() && sh.graceful.stored))
      && (c'.pc == Leaving(BroadcastEnd) ==> c.pc == Leaving(StoreEnd))
      && (c'.Checking() ==> c.pc == Leaving(Subtract) && sh'.connCount == 0)
  {
    if !c.pc.Leaving? {
      BodyKeepsShared(cfg, c, sh, r);
    }
  }

  lemma TaskStepInv(cfg: Config, s: System, i: nat, r: Reply)
    requires Inv(cfg, s) && Enabled(s, TaskStep(i, r))
    ensures Inv(cfg, Apply(cfg, s, TaskStep(i, r)))
  {
    var (c, sh) := Task(cfg, s.tasks[i], s.sh, r);
    TaskKeepsShared(cfg, s.tasks[i], s.sh, r);
    TaskConforms(cfg, s.tasks[i], s.sh, r);
    CountUpdate(s.tasks, COUNTED, i, c);
    assert DropperInv(s.sh, s.tasks[i]);
    var s' := Apply(cfg, s, TaskStep(i, r));
    forall j | 0 <= j < |s'.tasks| ensures DropperInv(s'.sh, s'.tasks[j]) {
      assert DropperInv(s.sh, s.tasks[j]);
    }
  }

  lemma ServeKeepsShared(cfg: Config, p: Serve, sh: Shared, r: ServeReply)
    ensures var (p', sh') := ServeModel.ServeStep(cfg, p, sh, r);
      && sh' == sh.(connCount := sh'.connCount, shutdown := sh'.shutdown, reports := sh'.reports)
      && p'.spawned == p.spawned + (if sh' == sh.(connCount := sh.connCount + 1) then 1 else 0)
      && sh'.connCount == sh.connCount + (p'.spawned - p.spawned)
      && (p'.spawned > p.spawned ==> p.pc.LoopMake?)
      && sh'.shutdown == (if p.pc.EndStore? then sh.shutdown.Store()
                          else if p.pc.EndBroadcast? then sh.shutdown.Broadcast()
                          else sh.shutdown)
  {
  }

  lemma LookKeepsPlace(p: Serve, sh: Shared)
    requires PlaceInv(p, sh) && (p.pc.EndTimer? || p.pc.EndLatch?) && sh.shutdown.Valid() && sh.connEnd.Valid()
    ensures PlaceInv(EndStep(p, sh).0, EndStep(p, sh).1)
  {
  }

  lemma WaitKeepsPlace(p: Serve, sh: Shared)
    requires PlaceInv(p, sh) && p.pc.Waiting() && sh.shutdown.Valid() && sh.connEnd.Valid()
    requires sh.graces != [] && sh.gracefulDur == LastGrace(sh.graces)
    ensures PlaceInv(EndStep(p, sh).0, EndStep(p, sh).1)
  {
    if p.pc.EndTimer? || p.pc.EndLatch? {
      LookKeepsPlace(p, sh);
    }
  }

  lemma PlainKeepsPlace(p: Serve, sh: Shared, r: ServeReply)
    requires PlaceInv(p, sh) && !p.pc.Waiting() && !p.pc.LoopMake? && !p.pc.LoopAccept?
    requires sh.shutdown.Valid() && sh.graceful.Valid()
    ensures PlaceInv(PlainStep(p, sh, r), sh)
  {
    var p' := PlainStep(p, sh, r);
    if p.pc.Returned? {
      assert p' == p;
    } else if p.pc.LoopGraceful? || p.pc.EndLoad? {
      assert p'.pc.OuterShutdown? || sh.graceful.stored;
    } else {
      assert p'.pc.Accepting() || p'.pc in [Returned(BindFailed), Returned(ReadyFailed), Returned(StoppedAtOnce)];
    }
  }

  lemma LoopKeepsPlace(cfg: Config, p: Serve, sh: Shared, r: ServeReply)
    requires PlaceInv(p, sh) && !p.pc.Waiting() && sh.shutdown.Valid() && sh.graceful.Valid()
    ensures var (p', sh') := ServeModel.ServeStep(cfg, p, sh, r); PlaceInv(p', sh')
  {
    if p.pc.LoopAccept? {
      var (p', _) := AcceptStep(cfg, p, sh, r.listen);
      assert p'.pc.LoopGraceful? || p'.pc.LoopAccept? || p'.pc.LoopReady?;
    } else if p.pc.LoopMake? {
      var (p', _) := MakeStep(cfg, p, sh, r.make);
      assert p'.pc.OuterShutdown? || p'.pc.LoopAccept?;
    } else {
      PlainKeepsPlace(p, sh, r);
    }
  }

  lemma ServeStepKeepsPlace(cfg: Config, s: System, r: ServeReply)
    requires LatchInv(s) && ServeInv(s) && Enabled(s, ServeStep(r))
    ensures ServeInv(Apply(cfg, s, ServeStep(r)))
  {
    if s.serve.pc.Waiting() {
      WaitKeepsPlace(s.serve, s.sh);
    } else {
      LoopKeepsPlace(cfg, s.serve, s.sh, r);
    }
  }

  lemma ServeStepInv(cfg: Config, s: System, r: ServeReply)
    requires Inv(cfg, s) && Enabled(s, ServeStep(r))
    ensures Inv(cfg, Apply(cfg, s, ServeStep(r)))
  {
    ServeKeepsShared(cfg, s.serve, s.sh, r);
    ServeStepKeepsPlace(cfg, s, r);
    CountAppend(s.tasks, COUNTED, SPAWNED);
    var s' := Apply(cfg, s, ServeStep(r));
    forall j | 0 <= j < |s'.tasks| ensures DropperInv(s'.sh, s'.tasks[j]) && Conforms(cfg, s'.tasks[j], s'.sh.now) {
      assert j < |s.tasks| ==> DropperInv(s.sh, s.tasks[j]) && Conforms(cfg, s.tasks[j], s.sh.now);
    }
  }

  lemma UnwindInv(cfg: Config, s: System, i: nat)
    requires Inv(cfg, s) && Enabled(s, Unwind(i))
    ensures Inv(cfg, Apply(cfg, s, Unwind(i)))
  {
    var s' := Apply(cfg, s, Unwind(i));
    CountUpdate(s.tasks, COUNTED, i, s'.tasks[i]);
    assert Conforms(cfg, s.tasks[i], s.sh.now);
    forall j | 0 <= j < |s'.tasks| ensures DropperInv(s'.sh, s'.tasks[j]) && Conforms(cfg, s'.tasks[j], s'.sh.now) {
      assert DropperInv(s.sh, s.tasks[j]) && Conforms(cfg, s.tasks[j], s.sh.now);
    }
  }

  lemma OtherStepInv(cfg: Config, s: System, a: Action)
    requires Inv(cfg, s) && Enabled(s, a) && !a.TaskStep? && !a.ServeStep? && !a.Unwind?
    ensures Inv(cfg, Apply(cfg, s, a))
  {
    var s' := Apply(cfg, s, a);
    assert s'.tasks == s.tasks;
    forall j | 0 <= j < |s'.tasks| ensures DropperInv(s'.sh, s'.tasks[j]) && Conforms(cfg, s'.tasks[j], s'.sh.now) {
      assert DropperInv(s.sh, s.tasks[j]) && Conforms(cfg, s.tasks[j], s.sh.now);
      ConformsLater(cfg, s.tasks[j], s.sh.now, s'.sh.now);
    }
  }

  lemma StepInv(cfg: Config, s: System, a: Action)
    requires Inv(cfg, s) && Enabled(s, a)
    ensures Inv(cfg, Apply(cfg, s, a))
  {
    match a
    case TaskStep(i, r) => TaskStepInv(cfg, s, i, r);
    case ServeStep(r) => ServeStepInv(cfg, s, r);
    case Unwind(i) => UnwindInv(cfg, s, i);
    case _ => OtherStepInv(cfg, s, a);
  }

  lemma {:induction false} RunInv(cfg: Config, s: System, run: seq<Action>)
    requires Inv(cfg, s) && ValidRun(cfg, s, run)
    ensures Inv(cfg, Exec(cfg, s, run))
    decreases |run|
  {
    if run != [] {
      StepInv(cfg, s, run[0]);
      RunInv(cfg, Apply(cfg, s, run[0]), run[1..]);
    }
  }

  // ---------------------------------------------------------------- the shared state only moves forward

  lemma StepMovesForward(cfg: Config, s: System, a: Action)
    requires Enabled(s, a)
    ensures s.sh.Before(Apply(cfg, s, a).sh)
  {
    if a.TaskStep? {
      TaskKeepsShared(cfg, s.tasks[a.i], s.sh, a.reply);
    } else if a.ServeStep? {
      ServeKeepsShared(cfg, s.serve, s.sh, a.answer);
    }
  }

  lemma {:induction false} RunMovesForward(cfg: Config, s: System, run: seq<Action>)
    requires ValidRun(cfg, s, run)
    ensures s.sh.Before(Exec(cfg, s, run).sh)
    decreases |run|
  {
    if run != [] {
      StepMovesForward(cfg, s, run[0]);
      RunMovesForward(cfg, Apply(cfg, s, run[0]), run[1..]);
    }
  }

  // ---------------------------------------------------------------- building runs

  ghost predicate Reaches(cfg: Config, s: System, t: System) {
    exists run :: ValidRun(cfg, s, run) && Exec(cfg, s, run) == t
  }

  lemma Next(cfg: Config, s: System, t: System, a: Action) returns (u: System)
    requires Reaches(cfg, s, t) && Enabled(t, a)
    ensures u == Apply(cfg, t, a) && Reaches(cfg, s, u)
  {
    u := Apply(cfg, t, a);
    var run :| ValidRun(cfg, s, run) && Exec(cfg, s, run) == t;
    RunOn(cfg, t, a, []);
    RunAppends(cfg, s, run, [a]);
    assert [a] + [] == [a];
  }

  lemma ReachesOn(cfg: Config, s: System, t: System, u: System)
    requires Reaches(cfg, s, t) && Reaches(cfg, t, u)
    ensures Reaches(cfg, s, u)
  {
    var run1 :| ValidRun(cfg, s, run1) && Exec(cfg, s, run1) == t;
    var run2 :| ValidRun(cfg, t, run2) && Exec(cfg, t, run2) == u;
    RunAppends(cfg, s, run1, run2);
  }

  const BUSY := ServeReply(StepOk, ListenOk, StepOk, StepOk)

  const REFUSE := Reply(AcceptErr, HttpReply(false, false, false))

  /** `serve`, at its listener, takes one connection from there to its spawned task. */
  lemma TakeConnection(cfg: Config, s: System, t: System) returns (u: System)
    requires Reaches(cfg, s, t) && t.serve.pc.LoopAccept? && t.serve.backoff.None?
    ensures Reaches(cfg, s, u) && u.serve.pc.LoopAccept? && u.serve.backoff.None?
    ensures u.tasks == t.tasks + [SPAWNED] && u.sh == t.sh.(connCount := t.sh.connCount + 1) && u.breach == t.breach
  {
    u := Next(cfg, s, t, ServeStep(BUSY));
    u := Next(cfg, s, u, ServeStep(BUSY));
    u := Next(cfg, s, u, ServeStep(BUSY));
  }

  /** A spawned task passes its gate, no latch being up. */
  lemma PassGate(cfg: Config, s: System, t: System, i: nat) returns (u: System)
    requires Reaches(cfg, s, t) && i < |t.tasks| && t.tasks[i] == SPAWNED
    requires !t.sh.shutdown.stored && !t.sh.graceful.stored
    ensures Reaches(cfg, s, u) && u == t.(tasks := t.tasks[i := SPAWNED.(pc := GateAccept)])
  {
    u := Next(cfg, s, t, TaskStep(i, REFUSE));
    u := Next(cfg, s, u, TaskStep(i, REFUSE));
  }
}
