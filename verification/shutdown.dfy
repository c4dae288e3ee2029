/** `shutdown()` ends every task, whatever its phase, and then `serve`, in any schedule. */
module Shutdown {
  import opened Latches
  import opened HandleModel
  import opened Connection
  import opened ServeModel
  import opened System
  import opened Drain

  const SHUT := Latch(true, true)

  /** The work left in all tasks once `shutdown()` has returned. */
  function TotalRank(tasks: seq<Conn>): nat {
    if tasks == [] then 0 else TotalRank(tasks[..|tasks| - 1]) + Rank(tasks[|tasks| - 1])
  }

  lemma {:induction false} TotalRankUpdate(tasks: seq<Conn>, i: nat, c: Conn)
    requires i < |tasks|
    ensures TotalRank(tasks[i := c]) + Rank(tasks[i]) == TotalRank(tasks) + Rank(c)
    decreases |tasks|
  {
    var n := |tasks| - 1;
    if i < n {
      TotalRankUpdate(tasks[..n], i, c);
      assert tasks[i := c][..n] == tasks[..n][i := c];
    } else {
      assert tasks[i := c][..n] == tasks[..n];
    }
  }

  lemma {:induction false} TotalRankBound(tasks: seq<Conn>)
    ensures TotalRank(tasks) <= 10 * |tasks|
    ensures TotalRank(tasks) == 0 <==> forall i :: 0 <= i < |tasks| ==> tasks[i].Done()
    decreases |tasks|
  {
    if tasks != [] {
      var n := |tasks| - 1;
      TotalRankBound(tasks[..n]);
      assert forall i :: 0 <= i < n ==> tasks[..n][i] == tasks[i];
    }
  }

  /** How many operations of tasks a run contains. */
  function TaskSteps(run: seq<Action>): nat {
    if run == [] then 0 else (if run[0].TaskStep? || run[0].Unwind? then 1 else 0) + TaskSteps(run[1..])
  }

  /** How many of them are operations of task `i`. */
  function StepsOf(run: seq<Action>, i: nat): nat {
    if run == [] then 0
    else (if (run[0].TaskStep? || run[0].Unwind?) && run[0].i == i then 1 else 0) + StepsOf(run[1..], i)
  }

  /** The work left in task `i`; the most there can be if it has yet to be spawned. */
  function RankAt(tasks: seq<Conn>, i: nat): nat {
    if i < |tasks| then Rank(tasks[i]) else 10
  }

  /** `serve` is not inside the accept loop: it is between polls, or waiting, or has returned. */
  predicate OutsideLoop(p: Serve) {
    !p.pc.LoopAccept? && !p.pc.LoopGraceful? && !p.pc.LoopReady? && !p.pc.LoopMake?
  }

  lemma ServeStaysOutside(cfg: Config, p: Serve, sh: Shared, r: ServeReply)
    requires OutsideLoop(p) && sh.shutdown == SHUT
    ensures OutsideLoop(ServeModel.ServeStep(cfg, p, sh, r).0)
  {
  }

  lemma StepShrinks(cfg: Config, s: System, a: Action)
    requires Enabled(s, a) && s.sh.shutdown == SHUT
    ensures var s' := Apply(cfg, s, a);
      && s'.sh.shutdown == SHUT
      && (OutsideLoop(s.serve) ==> OutsideLoop(s'.serve) && |s'.tasks| == |s.tasks|)
      && TotalRank(s'.tasks) + (if a.TaskStep? || a.Unwind? then 1 else 0)
           <= TotalRank(s.tasks) + 10 * (|s'.tasks| - |s.tasks|)
  {
    match a
    case TaskStep(i, r) =>
      TaskKeepsShared(cfg, s.tasks[i], s.sh, r);
      ShutdownShrinks(cfg, s.tasks[i], s.sh, r);
      TotalRankUpdate(s.tasks, i, Task(cfg, s.tasks[i], s.sh, r).0);
    case Unwind(i) =>
      TotalRankUpdate(s.tasks, i, s.tasks[i].Leave(Unwound));
    case ServeStep(r) =>
      ServeKeepsShared(cfg, s.serve, s.sh, r);
      assert (s.tasks + [SPAWNED])[..|s.tasks|] == s.tasks;
      if OutsideLoop(s.serve) {
        ServeStaysOutside(cfg, s.serve, s.sh, r);
      }
    case _ =>
  }

  /**
   After `shutdown()` every operation of a task uses up work, of which a new task brings at most ten;
   and once the current poll of the accept loop is over no task is spawned any more.
   */
  lemma {:induction false} WorkRunsOut(cfg: Config, s: System, run: seq<Action>)
    requires ValidRun(cfg, s, run) && s.sh.shutdown == SHUT
    ensures var t := Exec(cfg, s, run);
      && t.sh.shutdown == SHUT
      && (OutsideLoop(s.serve) ==> OutsideLoop(t.serve) && |t.tasks| == |s.tasks|)
      && TotalRank(t.tasks) + TaskSteps(run) <= TotalRank(s.tasks) + 10 * (|t.tasks| - |s.tasks|)
    decreases |run|
  {
    if run != [] {
      StepShrinks(cfg, s, run[0]);
      WorkRunsOut(cfg, Apply(cfg, s, run[0]), run[1..]);
    }
  }

  lemma StepShrinksEach(cfg: Config, s: System, a: Action, i: nat)
    requires Enabled(s, a) && s.sh.shutdown == SHUT
    ensures RankAt(Apply(cfg, s, a).tasks, i) + StepsOf([a], i) <= RankAt(s.tasks, i)
  {
    assert StepsOf([a][1..], i) == 0;
    match a
    case TaskStep(j, r) => ShutdownShrinks(cfg, s.tasks[j], s.sh, r);
    case ServeStep(r) => ServeKeepsShared(cfg, s.serve, s.sh, r);
    case _ =>
  }

  /**
   After `shutdown()` no task, spawned or yet to be spawned, unwound or not, makes more than ten
   operations.
   */
  lemma {:induction false} EachTaskRunsOut(cfg: Config, s: System, run: seq<Action>, i: nat)
    requires ValidRun(cfg, s, run) && s.sh.shutdown == SHUT
    ensures StepsOf(run, i) + RankAt(Exec(cfg, s, run).tasks, i) <= RankAt(s.tasks, i) <= 10
    decreases |run|
  {
    if run != [] {
      StepShrinks(cfg, s, run[0]);
      StepShrinksEach(cfg, s, run[0], i);
      EachTaskRunsOut(cfg, Apply(cfg, s, run[0]), run[1..], i);
      assert StepsOf(run, i) == StepsOf([run[0]], i) + StepsOf(run[1..], i);
    }
  }

  predicate AllDone(s: System) {
    forall i :: 0 <= i < |s.tasks| ==> s.tasks[i].Done()
  }

  /** `serve` returned `Ok(())` by itself. */
  predicate ReturnedOk(p: Serve) {
    p.pc in [Returned(StoppedAtOnce), Returned(NoConnections), Returned(Drained), Returned(OutOfTime)]
  }

  lemma WaitWithAllDone(cfg: Config, s: System)
    requires WakeInv(s) && AllDone(s) && s.serve.pc.Waiting()
    ensures s.sh.connEnd.finished
  {
  }

  /**
   With every task gone, the next poll of `serve` returns `Ok`: in the accept loop because of the
   shutdown, and in `wait_connections_end`, which does not listen for shutdown, even without one.
   */
  lemma ServeEndsInOnePoll(cfg: Config, s: System, env: ServeEnv, n: nat)
    requires Inv(cfg, s) && WakeInv(s) && AllDone(s)
    requires s.serve.pc.Waiting() || s.sh.shutdown == SHUT
    requires s.serve.Resting() && !s.serve.pc.Binding? && !s.serve.pc.Returned?
    requires Forward(env.others) && ServePollEnds(cfg, s.serve, s.sh, env, n)
    ensures ReturnedOk(RunServe(cfg, s.serve, s.sh, env, n).0)
  {
    assert s.sh.Before(env.others(0, s.sh));
    ServeOne(cfg, s.serve, s.sh, env, 0);
    match s.serve.pc
    case OuterShutdown =>
      ShutdownStopsTheLoop(cfg, s.serve, s.sh, env, n);
    case EndTimer =>
      WaitWithAllDone(cfg, s);
      var one := 1;
      var s1 := RunServe(cfg, s.serve, s.sh, env, one).1;
      assert s1.Before(env.others(one, s1));
      DeadlineIsExact(cfg, s.serve, s.sh, env, n, 0);
    case EndLatch =>
      WaitWithAllDone(cfg, s);
      ReturnedStays(cfg, s.serve, s.sh, env, 1, n);
  }

  /**
   Every task is gone, `serve` is past binding and has not returned, and its next poll takes `n`
   operations.
   */
  predicate OneMorePoll(cfg: Config, s: System, env: ServeEnv, n: nat) {
    && AllDone(s)
    && s.serve.Resting() && !s.serve.pc.Binding? && !s.serve.pc.Returned?
    && ServePollEnds(cfg, s.serve, s.sh, env, n)
  }

  /**
   From any reachable state in which `shutdown()` has returned, `serve` in the middle of a poll
   included: in every schedule the tasks make at most ten more operations each, none is spawned once
   `serve` is outside its loop, and when they have made them all the next poll of `serve`, if it is
   past binding, returns `Ok`.
   */
  lemma ShutdownEndsEverything(cfg: Config, before: seq<Action>, run: seq<Action>, env: ServeEnv, n: nat)
    requires ValidRun(cfg, START, before)
    requires var s := Exec(cfg, START, before); s.sh.shutdown == SHUT && ValidRun(cfg, s, run)
    requires Forward(env.others)
    ensures var s := Exec(cfg, START, before);
      var t := Exec(cfg, s, run);
      && (forall i: nat :: StepsOf(run, i) <= 10)
      && TaskSteps(run) <= 10 * |t.tasks|
      && (OutsideLoop(s.serve) ==> |t.tasks| == |s.tasks|)
      && (TotalRank(t.tasks) == 0 <==> AllDone(t))
      && (OneMorePoll(cfg, t, env, n) ==> ReturnedOk(RunServe(cfg, t.serve, t.sh, env, n).0))
  {
    var s := Exec(cfg, START, before);
    WorkRunsOut(cfg, s, run);
    forall i: nat ensures StepsOf(run, i) <= 10 {
      EachTaskRunsOut(cfg, s, run, i);
    }
    TotalRankBound(s.tasks);
    var t := Exec(cfg, s, run);
    TotalRankBound(t.tasks);
    RunAppends(cfg, START, before, run);
    StartInv(cfg);
    RunInv(cfg, START, before + run);
    RunWakes(cfg, START, before + run);
    if OneMorePoll(cfg, t, env, n) {
      ServeEndsInOnePoll(cfg, t, env, n);
    }
  }

  /**
   A graceful shutdown completes: once the last task is gone, the next poll of a waiting `serve`
   returns `Ok`.
   */
  lemma DrainCompletes(cfg: Config, run: seq<Action>, env: ServeEnv, n: nat)
    requires ValidRun(cfg, START, run) && Forward(env.others)
    requires var s := Exec(cfg, START, run); OneMorePoll(cfg, s, env, n) && s.serve.pc.Waiting()
    ensures var s := Exec(cfg, START, run); ReturnedOk(RunServe(cfg, s.serve, s.sh, env, n).0)
  {
    StartInv(cfg);
    RunInv(cfg, START, run);
    RunWakes(cfg, START, run);
    ServeEndsInOnePoll(cfg, Exec(cfg, START, run), env, n);
  }

  // ---------------------------------------------------------------- graceful shutdown, in the whole server

  lemma StepStaysTold(cfg: Config, s: System, a: Action, i: nat)
    requires TasksInv(cfg, s) && Enabled(s, a) && s.sh.graceful == SHUT
    requires i < |s.tasks| && ToldToStop(s.tasks[i])
    ensures var t := Apply(cfg, s, a);
      t.sh.graceful == SHUT && i < |t.tasks| && ToldToStop(t.tasks[i])
  {
    match a
    case TaskStep(j, r) =>
      TaskKeepsShared(cfg, s.tasks[j], s.sh, r);
      assert Conforms(cfg, s.tasks[j], s.sh.now);
      if i == j {
        TaskStaysTold(cfg, s.tasks[j], s.sh, r);
      }
    case ServeStep(r) => ServeKeepsShared(cfg, s.serve, s.sh, r);
    case _ =>
  }

  lemma {:induction false} ToldInEveryRun(cfg: Config, s: System, run: seq<Action>, i: nat)
    requires Inv(cfg, s) && ValidRun(cfg, s, run) && s.sh.graceful == SHUT
    requires i < |s.tasks| && ToldToStop(s.tasks[i])
    ensures var t := Exec(cfg, s, run); i < |t.tasks| && ToldToStop(t.tasks[i])
    decreases |run|
  {
    if run != [] {
      StepInv(cfg, s, run[0]);
      StepStaysTold(cfg, s, run[0], i);
      ToldInEveryRun(cfg, Apply(cfg, s, run[0]), run[1..], i);
    }
  }

  /**
   A task that was between two polls when `graceful_shutdown()` had returned, in whatever stage:
   from then on hyper's future is polled only after its one `graceful_shutdown`, the acceptor never.
   */
  lemma GracefulReachesEveryTask(cfg: Config, before: seq<Action>, run: seq<Action>, i: nat)
    requires ValidRun(cfg, START, before)
    requires var s := Exec(cfg, START, before);
      s.sh.graceful == SHUT && i < |s.tasks| && s.tasks[i].Resting() && ValidRun(cfg, s, run)
    ensures var t := Exec(cfg, Exec(cfg, START, before), run);
      && i < |t.tasks|
      && (t.tasks[i].PollsHttp() ==> t.tasks[i].gracefulCalls == 1)
      && !t.tasks[i].PollsAcceptor()
  {
    StartInv(cfg);
    RunInv(cfg, START, before);
    var s := Exec(cfg, START, before);
    assert Conforms(cfg, s.tasks[i], s.sh.now);
    ToldInEveryRun(cfg, s, run, i);
  }

  // ---------------------------------------------------------------- the deadline

  /** `serve` waits, or waited, under the grace period `d` that it read at `t0`. */
  ghost predicate WaitsUnder(p: Serve, sh: Shared, d: Grace, t0: nat) {
    && (p.pc.EndTimer? || p.pc.EndLatch? || p.pc.EndStore? || p.pc.EndBroadcast?
        || p.pc == Returned(Drained) || p.pc == Returned(OutOfTime) || p.pc == Returned(Cancelled))
    && p.grace == d
    && (d.Some? ==> p.deadline == t0 + d.value)
    && (p.pc.EndTimer? ==> d.Some?)
    && (p.pc.EndStore? || p.pc.EndBroadcast? || p.pc == Returned(OutOfTime) ==> d.Some? && t0 + d.value <= sh.now)
  }

  lemma StepWaitsUnder(cfg: Config, s: System, a: Action, d: Grace, t0: nat)
    requires Enabled(s, a) && WaitsUnder(s.serve, s.sh, d, t0)
    ensures WaitsUnder(Apply(cfg, s, a).serve, Apply(cfg, s, a).sh, d, t0)
  {
    match a
    case TaskStep(i, r) => TaskKeepsShared(cfg, s.tasks[i], s.sh, r);
    case ServeStep(r) => assert ServeModel.ServeStep(cfg, s.serve, s.sh, r) == EndStep(s.serve, s.sh);
    case _ =>
  }

  lemma {:induction false} RunWaitsUnder(cfg: Config, s: System, run: seq<Action>, d: Grace, t0: nat)
    requires ValidRun(cfg, s, run) && WaitsUnder(s.serve, s.sh, d, t0)
    ensures WaitsUnder(Exec(cfg, s, run).serve, Exec(cfg, s, run).sh, d, t0)
    decreases |run|
  {
    if run != [] {
      StepWaitsUnder(cfg, s, run[0], d, t0);
      RunWaitsUnder(cfg, Apply(cfg, s, run[0]), run[1..], d, t0);
    }
  }

  lemma LockWaitsUnder(cfg: Config, s: System, r: ServeReply)
    requires s.serve.pc.EndLock?
    ensures var t := Apply(cfg, s, ServeStep(r)); WaitsUnder(t.serve, t.sh, s.sh.gracefulDur, s.sh.now)
  {
  }

  /**
   From the operation that reads the grace period `d` at time `t0`, in every continuation: `serve`
   never leaves the wait but by `conn_end`, the deadline or cancellation; all the while its deadline is
   `t0 + d`; and if it returns at the deadline, `t0 + d` has passed and the server has been shut down,
   so that every remaining task ends at its next poll. Without a grace period there is no timer.
   */
  lemma OutOfTimeShutsDown(cfg: Config, before: seq<Action>, r: ServeReply, run: seq<Action>)
    requires ValidRun(cfg, START, before) && Exec(cfg, START, before).serve.pc.EndLock?
    requires ValidRun(cfg, Apply(cfg, Exec(cfg, START, before), ServeStep(r)), run)
    ensures var s := Exec(cfg, START, before);
      var d := s.sh.gracefulDur;
      var t := Exec(cfg, Apply(cfg, s, ServeStep(r)), run);
      && (t.serve.pc.Waiting() || t.serve.pc in [Returned(Drained), Returned(OutOfTime), Returned(Cancelled)])
      && t.serve.grace == d
      && (d.Some? ==> t.serve.deadline == s.sh.now + d.value)
      && (t.serve.pc.EndTimer? ==> d.Some?)
      && (t.serve.pc == Returned(OutOfTime) ==> d.Some? && s.sh.now + d.value <= t.sh.now && t.sh.shutdown == SHUT)
  {
    StartInv(cfg);
    RunInv(cfg, START, before);
    var s := Exec(cfg, START, before);
    StepInv(cfg, s, ServeStep(r));
    var s1 := Apply(cfg, s, ServeStep(r));
    RunInv(cfg, s1, run);
    LockWaitsUnder(cfg, s, r);
    RunWaitsUnder(cfg, s1, run, s.sh.gracefulDur, s.sh.now);
  }

  /**
   What a return stands on: a deadline reached and a finished shutdown, `conn_end` latched, or
   `shutdown()` called.
   */
  lemma ReturnsMean(cfg: Config, run: seq<Action>)
    requires ValidRun(cfg, START, run)
    ensures var s := Exec(cfg, START, run);
      && (s.serve.pc == Returned(OutOfTime) ==>
           s.sh.shutdown == SHUT && s.serve.deadline <= s.sh.now && s.serve.grace.Some?)
      && (s.serve.pc == Returned(Drained) ==> s.sh.connEnd.stored && s.sh.graceful.stored)
      && (s.serve.pc == Returned(StoppedAtOnce) ==> s.sh.shutdown.stored)
  {
    StartInv(cfg);
    RunInv(cfg, START, run);
  }

  /**
   The grace period that `wait_connections_end` reads was written by a call, is the latest by lock
   order, and is never the unset default.
   */
  lemma GraceIsTheLatest(cfg: Config, run: seq<Action>, r: ServeReply)
    requires ValidRun(cfg, START, run)
    requires Exec(cfg, START, run).serve.pc.EndLock?
    ensures var s := Exec(cfg, START, run);
      var p := Apply(cfg, s, ServeStep(r)).serve;
      && s.sh.graces != []
      && p.grace == s.sh.graces[|s.sh.graces| - 1]
      && (p.grace.Some? ==> p.deadline == s.sh.now + p.grace.value)
  {
    StartInv(cfg);
    RunInv(cfg, START, run);
  }
}
