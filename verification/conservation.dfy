/** Nothing is lost and nothing is counted twice: watchers, accepted streams, reported errors. */
module Conservation {
  import opened HandleModel
  import opened Connection
  import opened ServeModel
  import opened System

  // ---------------------------------------------------------------- the connection count

  /** `connection_count()` is the number of watchers not yet subtracted; the subtraction never underflows. */
  lemma CountIsExact(cfg: Config, run: seq<Action>)
    requires ValidRun(cfg, START, run)
    ensures var s := Exec(cfg, START, run);
      && s.sh.connCount == Count(s.tasks, COUNTED)
      && |s.tasks| == s.serve.spawned
      && forall i :: 0 <= i < |s.tasks| && s.tasks[i].pc == Leaving(Subtract) ==> s.sh.connCount >= 1
  {
    StartInv(cfg);
    RunInv(cfg, START, run);
    var s := Exec(cfg, START, run);
    CountZero(s.tasks, COUNTED);
    forall i | 0 <= i < |s.tasks| && s.tasks[i].pc == Leaving(Subtract) ensures s.sh.connCount >= 1 {
      assert COUNTED(s.tasks[i]);
    }
  }

  lemma StepKeepsUncounted(cfg: Config, s: System, a: Action)
    requires Enabled(s, a)
    ensures var s' := Apply(cfg, s, a);
      && |s.tasks| <= |s'.tasks|
      && forall i :: 0 <= i < |s.tasks| && !s.tasks[i].Counted() ==> !s'.tasks[i].Counted()
  {
    if a.TaskStep? {
      TaskKeepsShared(cfg, s.tasks[a.i], s.sh, a.reply);
    }
  }

  /** A watcher that has been subtracted is never counted, and so never subtracted, again. */
  lemma {:induction false} SubtractedOnce(cfg: Config, s: System, run: seq<Action>)
    requires ValidRun(cfg, s, run)
    ensures var t := Exec(cfg, s, run);
      && |s.tasks| <= |t.tasks|
      && forall i :: 0 <= i < |s.tasks| && !s.tasks[i].Counted() ==> !t.tasks[i].Counted()
    decreases |run|
  {
    if run != [] {
      StepKeepsUncounted(cfg, s, run[0]);
      SubtractedOnce(cfg, Apply(cfg, s, run[0]), run[1..]);
    }
  }

  lemma ServeStaysClosed(cfg: Config, p: Serve, sh: Shared, r: ServeReply)
    requires !p.pc.Accepting()
    ensures var (p', sh') := ServeModel.ServeStep(cfg, p, sh, r);
      !p'.pc.Accepting() && p'.spawned == p.spawned && sh'.connCount == sh.connCount
  {
    LoopStaysLeft(cfg, p, sh, r);
  }

  /** After the accept loop has ended no watcher is created and the count never rises. */
  lemma {:induction false} CountNeverRises(cfg: Config, s: System, run: seq<Action>)
    requires ValidRun(cfg, s, run) && !s.serve.pc.Accepting()
    ensures var t := Exec(cfg, s, run);
      && t.sh.connCount <= s.sh.connCount
      && |t.tasks| == |s.tasks|
      && !t.serve.pc.Accepting()
    decreases |run|
  {
    if run != [] {
      var a := run[0];
      match a {
        case TaskStep(i, r) => TaskKeepsShared(cfg, s.tasks[i], s.sh, r);
        case ServeStep(r) => ServeStaysClosed(cfg, s.serve, s.sh, r);
        case _ =>
      }
      CountNeverRises(cfg, Apply(cfg, s, a), run[1..]);
    }
  }

  // ---------------------------------------------------------------- streams and reports

  function Held(p: Serve): nat {
    if p.holding then 1 else 0
  }

  /**
   A stream is held only between the listener and the task: in `poll_ready`, in `make_service`, or
   lost with `serve`.
   */
  predicate HoldingInv(p: Serve) {
    match p.pc
    case LoopReady => p.holding && p.spot.AtReady?
    case LoopMake => p.holding && p.spot.AtMake?
    case OuterShutdown => p.holding <==> !p.spot.AtAccept?
    case Returned(o) => p.holding ==> o in [StoppedAtOnce, ReadyFailed, Cancelled]
    case _ => !p.holding && p.spot.AtAccept?
  }

  predicate Ledger(cfg: Config, s: System) {
    && HoldingInv(s.serve)
    && s.serve.listened == |s.tasks| + s.serve.makeErrs + Held(s.serve)
    && s.sh.reports == (if cfg.handler then s.serve.listenErrs + s.serve.makeErrs + Count(s.tasks, FAILED) else 0)
  }

  lemma TaskReports(cfg: Config, c: Conn, sh: Shared, r: Reply)
    requires StageConforms(c)
    ensures var (c', sh') := Task(cfg, c, sh, r);
      && (c.exit == AcceptFailed ==> c'.exit == AcceptFailed)
      && sh'.reports == sh.reports + (if cfg.handler && c.exit != c'.exit && c'.exit == AcceptFailed then 1 else 0)
  {
  }

  lemma ServeReports(cfg: Config, p: Serve, sh: Shared, r: ServeReply)
    requires HoldingInv(p)
    ensures var (p', sh') := ServeModel.ServeStep(cfg, p, sh, r);
      && HoldingInv(p')
      && p'.listened + p.spawned + p.makeErrs + Held(p) == p.listened + p'.spawned + p'.makeErrs + Held(p')
      && p'.listenErrs >= p.listenErrs && p'.makeErrs >= p.makeErrs
      && sh'.reports == sh.reports +
           (if cfg.handler then p'.listenErrs - p.listenErrs + p'.makeErrs - p.makeErrs else 0)
  {
    if p.pc.LoopAccept? || p.pc.LoopMake? {
      assert !p.pc.Waiting();
    } else if p.pc.Waiting() {
      WaitReports(p, sh);
    } else {
      PlainReports(p, sh, r);
    }
  }

  lemma WaitReports(p: Serve, sh: Shared)
    requires HoldingInv(p) && p.pc.Waiting()
    ensures var (p', sh') := EndStep(p, sh);
      && HoldingInv(p') && sh'.reports == sh.reports
      && (p'.listened, p'.spawned, p'.makeErrs) == (p.listened, p.spawned, p.makeErrs)
      && (p'.listenErrs, p'.holding) == (p.listenErrs, p.holding)
  {
  }

  lemma PlainReports(p: Serve, sh: Shared, r: ServeReply)
    requires HoldingInv(p) && !p.pc.Waiting() && !p.pc.LoopMake? && !p.pc.LoopAccept?
    ensures var p' := PlainStep(p, sh, r);
      && HoldingInv(p')
      && (p'.listened, p'.spawned, p'.makeErrs) == (p.listened, p.spawned, p.makeErrs)
      && (p'.listenErrs, p'.holding) == (p.listenErrs, p.holding)
  {
  }

  lemma StepKeepsLedger(cfg: Config, s: System, a: Action)
    requires Inv(cfg, s) && Ledger(cfg, s) && Enabled(s, a)
    ensures Ledger(cfg, Apply(cfg, s, a))
  {
    match a
    case TaskStep(i, r) =>
      assert Conforms(cfg, s.tasks[i], s.sh.now);
      TaskReports(cfg, s.tasks[i], s.sh, r);
      CountUpdate(s.tasks, FAILED, i, Task(cfg, s.tasks[i], s.sh, r).0);
    case Unwind(i) =>
      assert Conforms(cfg, s.tasks[i], s.sh.now);
      CountUpdate(s.tasks, FAILED, i, s.tasks[i].Leave(Unwound));
    case ServeStep(r) =>
      ServeReports(cfg, s.serve, s.sh, r);
      ServeKeepsShared(cfg, s.serve, s.sh, r);
      CountAppend(s.tasks, FAILED, SPAWNED);
    case _ =>
  }

  lemma {:induction false} RunKeepsLedger(cfg: Config, s: System, run: seq<Action>)
    requires Inv(cfg, s) && Ledger(cfg, s) && ValidRun(cfg, s, run)
    ensures Ledger(cfg, Exec(cfg, s, run))
    decreases |run|
  {
    if run != [] {
      StepKeepsLedger(cfg, s, run[0]);
      StepInv(cfg, s, run[0]);
      RunKeepsLedger(cfg, Apply(cfg, s, run[0]), run[1..]);
    }
  }

  /**
   In every run: listener successes are the watchers ever created, the make-service failures and at
   most one stream held or lost with `serve`; and with a handler set its calls are the listener
   errors, the make-service failures and the acceptor failures, so a cancelled handshake is never reported.
   */
  lemma NothingIsLost(cfg: Config, run: seq<Action>)
    requires ValidRun(cfg, START, run)
    ensures var s := Exec(cfg, START, run);
      && s.serve.listened == |s.tasks| + s.serve.makeErrs + Held(s.serve)
      && (s.serve.pc.PastLoop() || s.serve.pc.LoopAccept? ==> !s.serve.holding)
      && (cfg.handler ==> s.sh.reports == s.serve.listenErrs + s.serve.makeErrs + Count(s.tasks, FAILED))
      && (!cfg.handler ==> s.sh.reports == 0)
  {
    StartInv(cfg);
    RunKeepsLedger(cfg, START, run);
  }

  // ---------------------------------------------------------------- what the futures answered

  /** What the futures have answered in a run, and how often `serve` has been cancelled. */
  datatype Tally = Tally(
    bindErrs: nat,
    listened: nat,
    listenErrs: nat,
    readyErrs: nat,
    made: nat,
    makeErrs: nat,
    refused: nat,
    cancels: nat)

  const NOTHING := Tally(0, 0, 0, 0, 0, 0, 0, 0)

  /** The future that `serve` is about to poll answers. */
  function Answered(p: Serve, r: ServeReply, t: Tally): Tally {
    match p.pc
    case Binding => if r.bind.StepErr? then t.(bindErrs := t.bindErrs + 1) else t
    case LoopAccept =>
      if p.backoff.Some? then t
      else if r.listen.ListenErr? then t.(listenErrs := t.listenErrs + 1)
      else if r.listen.ListenOk? then t.(listened := t.listened + 1)
      else t
    case LoopReady => if r.ready.StepErr? then t.(readyErrs := t.readyErrs + 1) else t
    case LoopMake =>
      if r.make.StepErr? then t.(makeErrs := t.makeErrs + 1)
      else if r.make.StepOk? then t.(made := t.made + 1)
      else t
    case _ => t
  }

  function Record(s: System, a: Action, t: Tally): Tally
    requires Enabled(s, a)
  {
    match a
    case TaskStep(i, r) =>
      if s.tasks[i].PollsAcceptor() && r.accept.AcceptErr? then t.(refused := t.refused + 1) else t
    case ServeStep(r) => Answered(s.serve, r, t)
    case CancelServe => t.(cancels := t.cancels + 1)
    case _ => t
  }

  /** The tally of a run, kept from its actions and never from what the server makes of them. */
  function Tallied(cfg: Config, s: System, run: seq<Action>, t: Tally): Tally
    requires ValidRun(cfg, s, run)
    decreases |run|
  {
    if run == [] then t else Tallied(cfg, Apply(cfg, s, run[0]), run[1..], Record(s, run[0], t))
  }

  predicate ServeAgrees(p: Serve, t: Tally) {
    && p.listened == t.listened && p.listenErrs == t.listenErrs && p.makeErrs == t.makeErrs && p.spawned == t.made
    && t.bindErrs == (if p.pc == Returned(BindFailed) then 1 else 0)
    && t.readyErrs == (if p.pc == Returned(ReadyFailed) then 1 else 0)
    && t.cancels == (if p.pc == Returned(Cancelled) then 1 else 0)
  }

  predicate Agrees(s: System, t: Tally) {
    ServeAgrees(s.serve, t) && Count(s.tasks, FAILED) == t.refused
  }

  lemma WaitAgrees(p: Serve, sh: Shared, t: Tally)
    requires ServeAgrees(p, t) && p.pc.Waiting()
    ensures ServeAgrees(EndStep(p, sh).0, t)
  {
  }

  lemma PlainAgrees(p: Serve, sh: Shared, r: ServeReply, t: Tally)
    requires ServeAgrees(p, t) && !p.pc.Waiting() && !p.pc.LoopMake? && !p.pc.LoopAccept? && !p.pc.Returned?
    ensures ServeAgrees(PlainStep(p, sh, r), Answered(p, r, t))
  {
  }

  lemma ServeStepAgrees(cfg: Config, p: Serve, sh: Shared, r: ServeReply, t: Tally)
    requires ServeAgrees(p, t) && !p.pc.Returned?
    ensures ServeAgrees(ServeModel.ServeStep(cfg, p, sh, r).0, Answered(p, r, t))
  {
    if p.pc.Waiting() {
      WaitAgrees(p, sh, t);
    } else if !p.pc.LoopMake? && !p.pc.LoopAccept? {
      PlainAgrees(p, sh, r, t);
    }
  }

  /** A task fails with the error of its acceptor, and in no other way. */
  lemma RefusedIsFailed(cfg: Config, c: Conn, sh: Shared, r: Reply)
    requires StageConforms(c) && !c.Done()
    ensures var c' := Task(cfg, c, sh, r).0;
      c'.exit == AcceptFailed <==> c.exit == AcceptFailed || (c.PollsAcceptor() && r.accept.AcceptErr?)
    ensures c.PollsAcceptor() ==> c.exit == Running
  {
  }

  lemma TaskStepAgrees(cfg: Config, s: System, i: nat, r: Reply, t: Tally)
    requires TasksInv(cfg, s) && Agrees(s, t) && Enabled(s, TaskStep(i, r))
    ensures Agrees(Apply(cfg, s, TaskStep(i, r)), Record(s, TaskStep(i, r), t))
  {
    var c' := Task(cfg, s.tasks[i], s.sh, r).0;
    assert Conforms(cfg, s.tasks[i], s.sh.now);
    RefusedIsFailed(cfg, s.tasks[i], s.sh, r);
    assert Apply(cfg, s, TaskStep(i, r)).tasks == s.tasks[i := c'];
    CountUpdate(s.tasks, FAILED, i, c');
  }

  lemma UnwindAgrees(cfg: Config, s: System, i: nat, t: Tally)
    requires TasksInv(cfg, s) && Agrees(s, t) && Enabled(s, Unwind(i))
    ensures Agrees(Apply(cfg, s, Unwind(i)), t)
  {
    assert Conforms(cfg, s.tasks[i], s.sh.now);
    CountUpdate(s.tasks, FAILED, i, s.tasks[i].Leave(Unwound));
  }

  lemma ServeActionAgrees(cfg: Config, s: System, r: ServeReply, t: Tally)
    requires Agrees(s, t) && Enabled(s, ServeStep(r))
    ensures Agrees(Apply(cfg, s, ServeStep(r)), Record(s, ServeStep(r), t))
  {
    ServeStepAgrees(cfg, s.serve, s.sh, r, t);
    CountAppend(s.tasks, FAILED, SPAWNED);
    assert Answered(s.serve, r, t).refused == t.refused;
  }

  lemma StepAgrees(cfg: Config, s: System, a: Action, t: Tally)
    requires Inv(cfg, s) && Agrees(s, t) && Enabled(s, a)
    ensures Agrees(Apply(cfg, s, a), Record(s, a, t))
  {
    match a
    case TaskStep(i, r) => TaskStepAgrees(cfg, s, i, r, t);
    case Unwind(i) => UnwindAgrees(cfg, s, i, t);
    case ServeStep(r) => ServeActionAgrees(cfg, s, r, t);
    case _ =>
      var s' := Apply(cfg, s, a);
      assert s'.tasks == s.tasks;
      assert ServeAgrees(s'.serve, Record(s, a, t));
  }

  lemma {:induction false} RunAgrees(cfg: Config, s: System, run: seq<Action>, t: Tally)
    requires Inv(cfg, s) && Agrees(s, t) && ValidRun(cfg, s, run)
    ensures Agrees(Exec(cfg, s, run), Tallied(cfg, s, run, t))
    decreases |run|
  {
    if run != [] {
      StepAgrees(cfg, s, run[0], t);
      StepInv(cfg, s, run[0]);
      RunAgrees(cfg, Apply(cfg, s, run[0]), run[1..], Record(s, run[0], t));
    }
  }

  /**
   In every run the handler's calls are the errors that the listener, the make-service and the
   acceptors have answered, one for each; and every stream the listener has given was made into a task,
   failed in the make-service, or is the one held by `serve`.
   */
  lemma EveryErrorIsReported(cfg: Config, run: seq<Action>)
    requires ValidRun(cfg, START, run)
    ensures var s := Exec(cfg, START, run);
      var t := Tallied(cfg, START, run, NOTHING);
      && s.sh.reports == (if cfg.handler then t.listenErrs + t.makeErrs + t.refused else 0)
      && t.listened == t.made + t.makeErrs + Held(s.serve)
      && |s.tasks| == t.made
  {
    StartInv(cfg);
    RunInv(cfg, START, run);
    RunAgrees(cfg, START, run, NOTHING);
    RunKeepsLedger(cfg, START, run);
  }

  /**
   `serve` returns the error of binding, or that of `poll_ready`, exactly when there was one, and then
   there was only that one; whatever the listener or the make-service answer is no reason to return.
   */
  lemma ErrorsReturned(cfg: Config, run: seq<Action>)
    requires ValidRun(cfg, START, run)
    ensures var p := Exec(cfg, START, run).serve;
      var t := Tallied(cfg, START, run, NOTHING);
      && (p.pc == Returned(BindFailed) <==> t.bindErrs > 0)
      && (p.pc == Returned(ReadyFailed) <==> t.readyErrs > 0)
      && (p.pc == Returned(Cancelled) <==> t.cancels > 0)
      && t.bindErrs + t.readyErrs + t.cancels <= 1
  {
    StartInv(cfg);
    RunAgrees(cfg, START, run, NOTHING);
  }
}
