/**
 Every run of the whole server, seen from one of its tasks or from `serve`, is a run of that one alone
 under interference that only moves forward. So what `Connection` proves of one task and `ServeModel`
 of `serve` holds in the server.
 */
module Projection {
  import opened Latches
  import opened HandleModel
  import opened Connection
  import opened ServeModel
  import opened System

  // ---------------------------------------------------------------- turns

  /**
   One operation of an actor within a server run: what it read, what it was answered, what it became,
   what it left.
   */
  datatype Turn<C, R> = Turn(seen: Shared, reply: R, actor: C, left: Shared)

  /** A task or `serve`: its operation, and whether it has made its last one. */
  datatype Actor<!C, !R> = Actor(step: (C, Shared, R) -> (C, Shared), over: C -> bool)

  function ATask(cfg: Config): Actor<Conn, Reply> {
    Actor((c: Conn, sh: Shared, r: Reply) => Task(cfg, c, sh, r), (c: Conn) => c.Done())
  }

  function TheServe(cfg: Config): Actor<Serve, ServeReply> {
    Actor((p: Serve, sh: Shared, r: ServeReply) => ServeModel.ServeStep(cfg, p, sh, r), (p: Serve) => p.pc.Returned?)
  }

  /**
   Turn by turn: the actor goes on from where its last turn left it, in a state that has only moved
   forward.
   */
  predicate Linked<C(==), R>(a: Actor<C, R>, c: C, sh: Shared, turns: seq<Turn<C, R>>)
    decreases |turns|
  {
    turns == [] ||
    (var t := turns[0];
     && !a.over(c) && sh.Before(t.seen)
     && a.step(c, t.seen, t.reply) == (t.actor, t.left)
     && Linked(a, t.actor, t.left, turns[1..]))
  }

  /** The actor's state at the end of its turns. */
  function End<C, R>(c: C, turns: seq<Turn<C, R>>): C {
    if turns == [] then c else turns[|turns| - 1].actor
  }

  /** The state in which the actor left the `k`-th of its gaps, counted from `sh`. */
  function Anchor<C, R>(sh: Shared, turns: seq<Turn<C, R>>, k: nat): Shared
    requires k <= |turns|
  {
    if k == 0 then sh else turns[k - 1].left
  }

  /** What the rest of the server did before the actor's `k`-th operation. */
  function OthersOf<C, R>(sh: Shared, turns: seq<Turn<C, R>>): Others {
    (k: nat, now: Shared) => if k < |turns| && now == Anchor(sh, turns, k) then turns[k].seen else now
  }

  function RepliesOf<C, R>(turns: seq<Turn<C, R>>, otherwise: R): nat -> R {
    (k: nat) => if k < |turns| then turns[k].reply else otherwise
  }

  lemma {:induction false} LinkedAt<C, R>(a: Actor<C, R>, c: C, sh: Shared, turns: seq<Turn<C, R>>, k: nat)
    requires Linked(a, c, sh, turns) && k < |turns|
    ensures Anchor(sh, turns, k).Before(turns[k].seen) && !a.over(End(c, turns[..k]))
    ensures a.step(End(c, turns[..k]), turns[k].seen, turns[k].reply) == (turns[k].actor, turns[k].left)
    decreases k
  {
    if k > 0 {
      var t := turns[0];
      LinkedAt(a, t.actor, t.left, turns[1..], k - 1);
      if k > 1 {
        assert turns[1..][..k - 1][k - 2] == turns[..k][k - 1];
        assert Anchor(t.left, turns[1..], k - 1) == Anchor(sh, turns, k);
      }
    }
  }

  lemma LinkedIsForward<C, R>(a: Actor<C, R>, c: C, sh: Shared, turns: seq<Turn<C, R>>)
    requires Linked(a, c, sh, turns)
    ensures Forward(OthersOf(sh, turns))
  {
    var others := OthersOf(sh, turns);
    forall k: nat, now: Shared ensures now.Before(others(k, now)) {
      if k < |turns| {
        LinkedAt(a, c, sh, turns, k);
      }
    }
  }

  // ---------------------------------------------------------------- one task

  /** The operations of task `i` in a run, in order. */
  function Turns(cfg: Config, s: System, run: seq<Action>, i: nat): seq<Turn<Conn, Reply>>
    requires ValidRun(cfg, s, run)
    decreases |run|
  {
    if run == [] then []
    else
      var s' := Apply(cfg, s, run[0]);
      var rest := Turns(cfg, s', run[1..], i);
      if run[0].TaskStep? && run[0].i == i then [Turn(s.sh, run[0].reply, s'.tasks[i], s'.sh)] + rest else rest
  }

  /** The task is not unwound in the run. */
  predicate NotUnwound(run: seq<Action>, i: nat) {
    forall a :: a in run ==> !(a.Unwind? && a.i == i)
  }

  lemma StepLeavesTask(cfg: Config, s: System, a: Action, i: nat)
    requires Enabled(s, a) && i < |s.tasks| && !((a.TaskStep? || a.Unwind?) && a.i == i)
    ensures i < |Apply(cfg, s, a).tasks| && Apply(cfg, s, a).tasks[i] == s.tasks[i]
  {
  }

  lemma {:induction false} TurnsAreLinked(cfg: Config, s: System, run: seq<Action>, i: nat, sh: Shared)
    requires ValidRun(cfg, s, run) && i < |s.tasks| && NotUnwound(run, i) && sh.Before(s.sh)
    ensures Linked(ATask(cfg), s.tasks[i], sh, Turns(cfg, s, run, i))
    ensures var t := Exec(cfg, s, run);
      i < |t.tasks| && t.tasks[i] == End(s.tasks[i], Turns(cfg, s, run, i))
    decreases |run|
  {
    if run != [] {
      var a := run[0];
      var s' := Apply(cfg, s, a);
      assert a in run;
      assert NotUnwound(run[1..], i);
      StepMovesForward(cfg, s, a);
      if a.TaskStep? && a.i == i {
        TurnsAreLinked(cfg, s', run[1..], i, s'.sh);
        var rest := Turns(cfg, s', run[1..], i);
        var t := Turn(s.sh, a.reply, s'.tasks[i], s'.sh);
        assert ([t] + rest)[1..] == rest;
      } else {
        StepLeavesTask(cfg, s, a, i);
        TurnsAreLinked(cfg, s', run[1..], i, sh);
      }
    }
  }

  function EnvOf(sh: Shared, turns: seq<Turn<Conn, Reply>>): Env {
    Env(OthersOf(sh, turns), RepliesOf(turns, Reply(AcceptPending, HttpReply(false, false, false))))
  }

  lemma {:induction false} TurnsAreRun(cfg: Config, c: Conn, sh: Shared, turns: seq<Turn<Conn, Reply>>, n: nat)
    requires Linked(ATask(cfg), c, sh, turns) && n <= |turns|
    ensures RunTask(cfg, c, sh, EnvOf(sh, turns), n) == (End(c, turns[..n]), Anchor(sh, turns, n))
  {
    if n > 0 {
      TurnsAreRun(cfg, c, sh, turns, n - 1);
      LinkedAt(ATask(cfg), c, sh, turns, n - 1);
      RunOne(cfg, c, sh, EnvOf(sh, turns), n - 1);
      assert turns[..n][n - 1] == turns[n - 1];
    }
  }

  /**
   The projection: the task's operations in a server run, read at the states the server was really
   in, are a run of the task in a forward environment, operation by operation to its last state.
   */
  lemma ServerRunIsTaskRun(cfg: Config, s: System, run: seq<Action>, i: nat)
    requires ValidRun(cfg, s, run) && i < |s.tasks| && NotUnwound(run, i)
    ensures var turns := Turns(cfg, s, run, i);
      var env := EnvOf(s.sh, turns);
      && Forward(env.others)
      && (forall n :: 0 <= n <= |turns| ==>
           RunTask(cfg, s.tasks[i], s.sh, env, n) == (End(s.tasks[i], turns[..n]), Anchor(s.sh, turns, n)))
      && (forall n :: 0 <= n < |turns| ==> SeenAt(cfg, s.tasks[i], s.sh, env, n) == turns[n].seen)
      && i < |Exec(cfg, s, run).tasks|
      && RunTask(cfg, s.tasks[i], s.sh, env, |turns|).0 == Exec(cfg, s, run).tasks[i]
  {
    var turns := Turns(cfg, s, run, i);
    var c, env := s.tasks[i], EnvOf(s.sh, turns);
    TurnsAreLinked(cfg, s, run, i, s.sh);
    LinkedIsForward(ATask(cfg), c, s.sh, turns);
    forall n | 0 <= n <= |turns|
      ensures RunTask(cfg, c, s.sh, env, n) == (End(c, turns[..n]), Anchor(s.sh, turns, n))
    {
      TurnsAreRun(cfg, c, s.sh, turns, n);
    }
    assert turns[..|turns|] == turns;
  }

  lemma ShutdownEndsTheTurns(cfg: Config, c: Conn, sh: Shared, turns: seq<Turn<Conn, Reply>>)
    requires Linked(ATask(cfg), c, sh, turns) && turns != []
    requires sh.shutdown == Latch(true, true) && c.Resting()
    ensures |turns| <= 6 && (End(c, turns).Resting() ==> End(c, turns).Done())
  {
    var env := EnvOf(sh, turns);
    LinkedIsForward(ATask(cfg), c, sh, turns);
    assert sh.Before(env.others(0, sh));
    var n := |turns|;
    assert turns[..n] == turns;
    TurnsAreRun(cfg, c, sh, turns, n);
    LinkedAt(ATask(cfg), c, sh, turns, n - 1);
    if n > 6 {
      TurnsAreRun(cfg, c, sh, turns, n - 1);
      ShutdownIsOver(cfg, c, sh, env, n - 1);
      assert false;
    }
    if End(c, turns).Resting() {
      ShutdownIsOver(cfg, c, sh, env, n);
    }
  }

  /**
   So `shutdown()` works in the server: if a task was between two polls when it had returned, then in
   every continuation that does not unwind it the task makes at most six more operations, and is
   between polls again only when it is done.
   */
  lemma ShutdownEndsTheTask(cfg: Config, s: System, run: seq<Action>, i: nat)
    requires ValidRun(cfg, s, run) && i < |s.tasks| && NotUnwound(run, i)
    requires s.sh.shutdown == Latch(true, true) && s.tasks[i].Resting()
    ensures var turns := Turns(cfg, s, run, i);
      var t := Exec(cfg, s, run);
      && |turns| <= 6 && i < |t.tasks|
      && (turns != [] && t.tasks[i].Resting() ==> t.tasks[i].Done())
  {
    var turns := Turns(cfg, s, run, i);
    TurnsAreLinked(cfg, s, run, i, s.sh);
    if turns != [] {
      ShutdownEndsTheTurns(cfg, s.tasks[i], s.sh, turns);
    }
  }

  // ---------------------------------------------------------------- serve

  /** The operations of `serve` in a run, in order. */
  function ServeTurns(cfg: Config, s: System, run: seq<Action>): seq<Turn<Serve, ServeReply>>
    requires ValidRun(cfg, s, run)
    decreases |run|
  {
    if run == [] then []
    else
      var s' := Apply(cfg, s, run[0]);
      var rest := ServeTurns(cfg, s', run[1..]);
      if run[0].ServeStep? then [Turn(s.sh, run[0].answer, s'.serve, s'.sh)] + rest else rest
  }

  lemma {:induction false} ServeTurnsAreLinked(cfg: Config, s: System, run: seq<Action>, sh: Shared)
    requires ValidRun(cfg, s, run) && CancelServe !in run && sh.Before(s.sh)
    ensures var turns := ServeTurns(cfg, s, run);
      && Linked(TheServe(cfg), s.serve, sh, turns)
      && Exec(cfg, s, run).serve == End(s.serve, turns)
      && Anchor(sh, turns, |turns|).Before(Exec(cfg, s, run).sh)
    decreases |run|
  {
    if run != [] {
      var a := run[0];
      var s' := Apply(cfg, s, a);
      assert a in run;
      StepMovesForward(cfg, s, a);
      if a.ServeStep? {
        ServeTurnsAreLinked(cfg, s', run[1..], s'.sh);
        var rest := ServeTurns(cfg, s', run[1..]);
        var t := Turn(s.sh, a.answer, s'.serve, s'.sh);
        assert ([t] + rest)[1..] == rest;
      } else {
        assert s'.serve == s.serve;
        ServeTurnsAreLinked(cfg, s', run[1..], sh);
      }
    }
  }

  function ServeEnvOf(sh: Shared, turns: seq<Turn<Serve, ServeReply>>): ServeEnv {
    ServeEnv(OthersOf(sh, turns), RepliesOf(turns, ServeReply(StepPending, ListenPending, StepPending, StepPending)))
  }

  lemma {:induction false} ServeTurnsAreRun(
      cfg: Config, p: Serve, sh: Shared, turns: seq<Turn<Serve, ServeReply>>, n: nat)
    requires Linked(TheServe(cfg), p, sh, turns) && n <= |turns|
    ensures RunServe(cfg, p, sh, ServeEnvOf(sh, turns), n) == (End(p, turns[..n]), Anchor(sh, turns, n))
    ensures n < |turns| ==> ServeSees(cfg, p, sh, ServeEnvOf(sh, turns), n) == turns[n].seen
    ensures n < |turns| ==> !End(p, turns[..n]).pc.Returned?
  {
    if n < |turns| {
      LinkedAt(TheServe(cfg), p, sh, turns, n);
    }
    if n > 0 {
      ServeTurnsAreRun(cfg, p, sh, turns, n - 1);
      LinkedAt(TheServe(cfg), p, sh, turns, n - 1);
      ServeOne(cfg, p, sh, ServeEnvOf(sh, turns), n - 1);
      assert turns[..n][n - 1] == turns[n - 1];
    }
  }

  /** The projection to `serve`, likewise. */
  lemma ServerRunIsServeRun(cfg: Config, s: System, run: seq<Action>)
    requires ValidRun(cfg, s, run) && CancelServe !in run
    ensures var turns := ServeTurns(cfg, s, run);
      var env := ServeEnvOf(s.sh, turns);
      && Forward(env.others)
      && (forall n :: 0 <= n <= |turns| ==>
           RunServe(cfg, s.serve, s.sh, env, n) == (End(s.serve, turns[..n]), Anchor(s.sh, turns, n)))
      && (forall n :: 0 <= n < |turns| ==>
           && ServeSees(cfg, s.serve, s.sh, env, n) == turns[n].seen
           && !End(s.serve, turns[..n]).pc.Returned?)
      && Exec(cfg, s, run).serve == End(s.serve, turns[..|turns|])
      && Anchor(s.sh, turns, |turns|).Before(Exec(cfg, s, run).sh)
  {
    var turns := ServeTurns(cfg, s, run);
    var p, env := s.serve, ServeEnvOf(s.sh, turns);
    ServeTurnsAreLinked(cfg, s, run, s.sh);
    LinkedIsForward(TheServe(cfg), p, s.sh, turns);
    forall n | 0 <= n <= |turns|
      ensures RunServe(cfg, p, s.sh, env, n) == (End(p, turns[..n]), Anchor(s.sh, turns, n))
      ensures n < |turns| ==> ServeSees(cfg, p, s.sh, env, n) == turns[n].seen && !End(p, turns[..n]).pc.Returned?
    {
      ServeTurnsAreRun(cfg, p, s.sh, turns, n);
    }
    assert turns[..|turns|] == turns;
  }

  /**
   So in the server: if `serve` was suspended in its accept loop when `shutdown()` had returned, its
   next operation is its last.
   */
  lemma ShutdownEndsServe(cfg: Config, s: System, run: seq<Action>)
    requires ValidRun(cfg, s, run) && CancelServe !in run
    requires s.sh.shutdown == Latch(true, true) && s.serve.pc.OuterShutdown? && s.serve.Resting()
    ensures var turns := ServeTurns(cfg, s, run);
      |turns| <= 1 && (turns != [] ==> Exec(cfg, s, run).serve.pc == Returned(StoppedAtOnce))
  {
    var turns := ServeTurns(cfg, s, run);
    var env := ServeEnvOf(s.sh, turns);
    ServerRunIsServeRun(cfg, s, run);
    var n := |turns|;
    assert s.sh.Before(env.others(0, s.sh));
    if n > 1 {
      ShutdownStopsTheLoop(cfg, s.serve, s.sh, env, n - 1);
      assert false;
    }
    if n > 0 {
      ShutdownStopsTheLoop(cfg, s.serve, s.sh, env, n);
    }
  }

  /** `serve` as turn `k` of a run finds it. */
  function AtTurn(cfg: Config, s: System, run: seq<Action>, k: nat): Serve
    requires ValidRun(cfg, s, run) && k < |ServeTurns(cfg, s, run)|
  {
    End(s.serve, ServeTurns(cfg, s, run)[..k])
  }

  /** What is proved of operation `k` of a poll holds of turn `k` of a run. */
  lemma TurnIsOperation(cfg: Config, s: System, run: seq<Action>, k: nat)
    requires ValidRun(cfg, s, run) && CancelServe !in run && k < |ServeTurns(cfg, s, run)|
    ensures var turns := ServeTurns(cfg, s, run);
      var env := ServeEnvOf(s.sh, turns);
      && Forward(env.others)
      && RunServe(cfg, s.serve, s.sh, env, k).0 == AtTurn(cfg, s, run, k)
      && !AtTurn(cfg, s, run, k).pc.Returned?
      && RunServe(cfg, s.serve, s.sh, env, k + 1) == (turns[k].actor, turns[k].left)
      && ServeSees(cfg, s.serve, s.sh, env, k) == turns[k].seen
      && env.replies(k) == turns[k].reply
      && (k + 1 < |turns| ==> AtTurn(cfg, s, run, k + 1) == turns[k].actor)
      && (k + 1 == |turns| ==> Exec(cfg, s, run).serve == turns[k].actor && turns[k].left.Before(Exec(cfg, s, run).sh))
  {
    var turns := ServeTurns(cfg, s, run);
    ServeTurnsAreLinked(cfg, s, run, s.sh);
    LinkedIsForward(TheServe(cfg), s.serve, s.sh, turns);
    ServeTurnsAreRun(cfg, s.serve, s.sh, turns, k);
    ServeTurnsAreRun(cfg, s.serve, s.sh, turns, k + 1);
    assert turns[..k + 1][k] == turns[k];
  }

  /**
   The timer of a wait is due: at most two operations follow, and `serve` rests only when it has
   returned and the server is shut down.
   */
  lemma DueInTheServer(cfg: Config, s: System, run: seq<Action>, k: nat)
    requires ValidRun(cfg, s, run) && CancelServe !in run && k < |ServeTurns(cfg, s, run)|
    requires AtTurn(cfg, s, run, k).pc.EndTimer?
    requires ServeTurns(cfg, s, run)[k].seen.now >= AtTurn(cfg, s, run, k).deadline
    ensures var t := Exec(cfg, s, run);
      && |ServeTurns(cfg, s, run)| <= k + 3
      && (t.serve.Resting() ==> t.serve.pc == Returned(OutOfTime) && t.sh.shutdown == Latch(true, true))
  {
    var n := |ServeTurns(cfg, s, run)|;
    var env := ServeEnvOf(s.sh, ServeTurns(cfg, s, run));
    TurnIsOperation(cfg, s, run, k);
    if k + 3 < n {
      DueAfter(cfg, s.serve, s.sh, env, k, k + 3);
      TurnIsOperation(cfg, s, run, k + 3);
    } else {
      DueAfter(cfg, s.serve, s.sh, env, k, n);
      TurnIsOperation(cfg, s, run, n - 1);
    }
  }

  /**
   The timer is not due: the next operation returns exactly when it sees `conn_end`, and else `serve`
   waits on.
   */
  lemma NotDueInTheServer(cfg: Config, s: System, run: seq<Action>, k: nat)
    requires ValidRun(cfg, s, run) && CancelServe !in run && k + 1 < |ServeTurns(cfg, s, run)|
    requires AtTurn(cfg, s, run, k).pc.EndTimer? && AtTurn(cfg, s, run, k).grace.Some?
    requires ServeTurns(cfg, s, run)[k].seen.now < AtTurn(cfg, s, run, k).deadline
    ensures var p := AtTurn(cfg, s, run, k);
      var next := ServeTurns(cfg, s, run)[k + 1];
      next.actor == if next.seen.connEnd.Seen(p.endFirst) then p.Return(Drained) else p.(endFirst := false)
  {
    TurnIsOperation(cfg, s, run, k);
    TurnIsOperation(cfg, s, run, k + 1);
    NotDueRun(cfg, s.serve, s.sh, ServeEnvOf(s.sh, ServeTurns(cfg, s, run)), k);
  }

  lemma {:induction false} SeenBeforeTheEnd(cfg: Config, s: System, run: seq<Action>)
    requires ValidRun(cfg, s, run)
    ensures forall t :: t in ServeTurns(cfg, s, run) ==> t.seen.now <= Exec(cfg, s, run).sh.now
    decreases |run|
  {
    if run != [] {
      RunMovesForward(cfg, s, run);
      SeenBeforeTheEnd(cfg, Apply(cfg, s, run[0]), run[1..]);
    }
  }

  lemma SeesBeforeTheEnd(cfg: Config, s: System, run: seq<Action>, j: nat)
    requires ValidRun(cfg, s, run) && CancelServe !in run && j < |ServeTurns(cfg, s, run)|
    ensures ServeSees(cfg, s.serve, s.sh, ServeEnvOf(s.sh, ServeTurns(cfg, s, run)), j).now <= Exec(cfg, s, run).sh.now
  {
    SeenBeforeTheEnd(cfg, s, run);
    TurnIsOperation(cfg, s, run, j);
    assert ServeTurns(cfg, s, run)[j] in ServeTurns(cfg, s, run);
  }

  /** In the server, too, nothing is taken from the listener until 50 ms after it has answered with an error. */
  lemma PauseHoldsInTheServer(cfg: Config, s: System, run: seq<Action>, k: nat)
    requires ValidRun(cfg, s, run) && CancelServe !in run && k < |ServeTurns(cfg, s, run)|
    requires var p := AtTurn(cfg, s, run, k); p.pc.LoopAccept? && p.spot.AtAccept? && p.backoff.None?
    requires var turn := ServeTurns(cfg, s, run)[k];
      turn.reply.listen.ListenErr? && Exec(cfg, s, run).sh.now < turn.seen.now + BACKOFF
    ensures var p := AtTurn(cfg, s, run, k);
      var p' := Exec(cfg, s, run).serve;
      && Pausing(p', ServeTurns(cfg, s, run)[k].seen.now + BACKOFF)
      && p'.listened == p.listened && p'.listenErrs == p.listenErrs + 1
  {
    var turns := ServeTurns(cfg, s, run);
    var env := ServeEnvOf(s.sh, turns);
    forall j | 0 <= j < |turns| ensures ServeSees(cfg, s.serve, s.sh, env, j).now < turns[k].seen.now + BACKOFF {
      SeesBeforeTheEnd(cfg, s, run, j);
    }
    TurnIsOperation(cfg, s, run, k);
    TurnIsOperation(cfg, s, run, |turns| - 1);
    ThePauseHolds(cfg, s.serve, s.sh, env, k, |turns|);
  }

  /**
   In the server, too, a poll of `accept` that ends pending after `graceful_shutdown()` leaves the
   loop with the next operation.
   */
  lemma GracefulLeavesInTheServer(cfg: Config, s: System, run: seq<Action>, k: nat)
    requires ValidRun(cfg, s, run) && CancelServe !in run && k + 1 < |ServeTurns(cfg, s, run)|
    requires var turn := ServeTurns(cfg, s, run)[k];
      && AtTurn(cfg, s, run, k).pc.LoopAccept? && turn.seen.graceful == Latch(true, true)
      && AcceptIsPending(AtTurn(cfg, s, run, k), turn.seen, turn.reply)
    ensures ServeTurns(cfg, s, run)[k + 1].actor == AtTurn(cfg, s, run, k).(pc := EndLoad)
  {
    TurnIsOperation(cfg, s, run, k);
    TurnIsOperation(cfg, s, run, k + 1);
    GracefulLeavesTheLoop(cfg, s.serve, s.sh, ServeEnvOf(s.sh, ServeTurns(cfg, s, run)), k);
  }
}
