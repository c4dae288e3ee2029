/** Why a task ended, in every run of the server, told from what its futures answered and which latches were up. */
module Reasons {
  import opened Prelude
  import opened HandleModel
  import opened Connection
  import opened System

  /**
   What has happened to a task. `accepted`: when its acceptor answered with a connection; `refused`: it
   answered with an error. `finished`: hyper's future was ready. `dispatched`, `dropped`: hyper
   dispatched a request, or dropped the service without one, whichever came first.
   */
  datatype Facts = Facts(
    accepted: Option<nat>,
    refused: bool,
    finished: bool,
    dispatched: bool,
    dropped: bool,
    unwound: bool)

  const NO_FACTS := Facts(None, false, false, false, false, false)

  /** The future that the task is about to poll answers. */
  function Note(c: Conn, now: nat, r: Reply, f: Facts): Facts {
    if c.PollsAcceptor() then
      match r.accept
      case AcceptPending => f
      case AcceptOk => f.(accepted := Some(now))
      case AcceptErr => f.(refused := true)
    else if c.PollsHttp() then
      f.(finished := f.finished || r.http.ready,
         dispatched := f.dispatched || (r.http.dispatches && !f.dropped),
         dropped := f.dropped || (r.http.dropsService && !r.http.dispatches && !f.dispatched))
    else f
  }

  /** The facts about task `i` after a run, gathered from the run's actions. */
  function Learn(cfg: Config, s: System, run: seq<Action>, i: nat, f: Facts): Facts
    requires ValidRun(cfg, s, run)
    decreases |run|
  {
    if run == [] then f
    else Learn(cfg, Apply(cfg, s, run[0]), run[1..], i, Notice(s, run[0], i, f))
  }

  function Notice(s: System, a: Action, i: nat, f: Facts): Facts
    requires Enabled(s, a)
  {
    match a
    case TaskStep(j, r) => if i == j then Note(s.tasks[i], s.sh.now, r, f) else f
    case Unwind(j) => if i == j then f.(unwound := true) else f
    case _ => f
  }

  /** Why the body ended, or that nothing has happened to end it. */
  predicate Because(cfg: Config, c: Conn, f: Facts, sh: Shared) {
    && (f.refused <==> c.exit == AcceptFailed)
    && (f.finished <==> c.exit == HttpDone)
    && (f.unwound <==> c.exit == Unwound)
    && match c.exit
       case SawShutdown => sh.shutdown.stored
       case SawGraceful => sh.graceful.stored && f.accepted.None?
       case TimedOut =>
         && cfg.firstRequest.Some? && f.accepted.Some?
         && f.accepted.value + cfg.firstRequest.value <= sh.now
         && c.gracefulCalls == 0 && !c.rxReady
       case SenderGone => cfg.firstRequest.Some? && f.dropped && !f.dispatched && c.gracefulCalls == 0
       case _ => true
  }

  function SignalOf(cfg: Config, f: Facts): Signal {
    if cfg.firstRequest.None? then Held
    else if f.dispatched then Sent
    else if f.dropped then Gone
    else Held
  }

  predicate Knows(cfg: Config, c: Conn, f: Facts, sh: Shared) {
    && Because(cfg, c, f, sh)
    && (c.acceptReady <==> f.accepted.Some? || f.refused)
    && (f.accepted.Some? ==> c.entered == f.accepted.value && !f.refused)
    && (f.dispatched ==> !f.dropped)
    && c.signal == SignalOf(cfg, f)
    && (c.gracefulCalls > 0 ==> sh.graceful.stored && f.accepted.Some?)
    && (c.exit == SenderGone ==> c.rxReady)
    && (c.rxReady ==> f.accepted.Some?)
  }

  lemma HttpKnows(cfg: Config, c: Conn, f: Facts, sh: Shared, r: Reply)
    requires Knows(cfg, c, f, sh) && Conforms(cfg, c, sh.now) && c.PollsHttp()
    ensures Knows(cfg, Task(cfg, c, sh, r).0, Note(c, sh.now, r, f), sh)
  {
  }

  lemma AcceptorKnows(cfg: Config, c: Conn, f: Facts, sh: Shared, r: Reply)
    requires Knows(cfg, c, f, sh) && Conforms(cfg, c, sh.now) && c.PollsAcceptor()
    ensures Knows(cfg, Task(cfg, c, sh, r).0, Note(c, sh.now, r, f), sh)
  {
  }

  lemma FirstKnows(cfg: Config, c: Conn, f: Facts, sh: Shared, r: Reply)
    requires Knows(cfg, c, f, sh) && Conforms(cfg, c, sh.now) && c.InFirst() && !c.PollsHttp()
    requires sh.shutdown.Valid() && sh.graceful.Valid()
    ensures Knows(cfg, Task(cfg, c, sh, r).0, f, sh)
  {
  }

  /** An operation that looks at a latch, the timer or the signal, or drops the watcher. */
  lemma LookKnows(cfg: Config, c: Conn, f: Facts, sh: Shared, r: Reply)
    requires Knows(cfg, c, f, sh) && Conforms(cfg, c, sh.now) && !c.PollsHttp() && !c.PollsAcceptor()
    requires sh.shutdown.Valid() && sh.graceful.Valid()
    ensures Knows(cfg, Task(cfg, c, sh, r).0, f, sh)
  {
    if c.InFirst() {
      FirstKnows(cfg, c, f, sh, r);
    } else if c.pc.Leaving? {
      TaskKeepsShared(cfg, c, sh, r);
    }
  }

  lemma TaskKnows(cfg: Config, c: Conn, f: Facts, sh: Shared, r: Reply)
    requires Knows(cfg, c, f, sh) && Conforms(cfg, c, sh.now)
    requires sh.shutdown.Valid() && sh.graceful.Valid()
    ensures Knows(cfg, Task(cfg, c, sh, r).0, Note(c, sh.now, r, f), sh)
  {
    if c.PollsHttp() {
      HttpKnows(cfg, c, f, sh, r);
    } else if c.PollsAcceptor() {
      AcceptorKnows(cfg, c, f, sh, r);
    } else {
      LookKnows(cfg, c, f, sh, r);
    }
  }

  lemma KnowsLater(cfg: Config, c: Conn, f: Facts, sh: Shared, sh': Shared)
    requires Knows(cfg, c, f, sh) && sh.Before(sh')
    ensures Knows(cfg, c, f, sh')
  {
  }

  /** The facts about task `i` fit the task, or there are none because it has not been spawned. */
  predicate KnowsTask(cfg: Config, s: System, i: nat, f: Facts) {
    if i < |s.tasks| then Knows(cfg, s.tasks[i], f, s.sh) else f == NO_FACTS
  }

  lemma StepKnows(cfg: Config, s: System, a: Action, i: nat, f: Facts)
    requires Inv(cfg, s) && KnowsTask(cfg, s, i, f) && Enabled(s, a)
    ensures KnowsTask(cfg, Apply(cfg, s, a), i, Notice(s, a, i, f))
  {
    StepMovesForward(cfg, s, a);
    var s' := Apply(cfg, s, a);
    if i < |s.tasks| {
      assert Conforms(cfg, s.tasks[i], s.sh.now);
      if a.TaskStep? && a.i == i {
        TaskKnows(cfg, s.tasks[i], f, s.sh, a.reply);
        KnowsLater(cfg, s'.tasks[i], Notice(s, a, i, f), s.sh, s'.sh);
      } else if !a.Unwind? || a.i != i {
        assert s'.tasks[i] == s.tasks[i];
        KnowsLater(cfg, s.tasks[i], f, s.sh, s'.sh);
      }
    }
  }

  lemma {:induction false} RunKnows(cfg: Config, s: System, run: seq<Action>, i: nat, f: Facts)
    requires Inv(cfg, s) && KnowsTask(cfg, s, i, f) && ValidRun(cfg, s, run)
    ensures KnowsTask(cfg, Exec(cfg, s, run), i, Learn(cfg, s, run, i, f))
    decreases |run|
  {
    if run != [] {
      StepKnows(cfg, s, run[0], i, f);
      StepInv(cfg, s, run[0]);
      RunKnows(cfg, Apply(cfg, s, run[0]), run[1..], i, Notice(s, run[0], i, f));
    }
  }

  /**
   No task is ended early. In every run a task whose body is over was refused by its acceptor, or its
   hyper future was ready, or it was unwound, each exactly when that has happened; or a latch that ends
   it was up; or the first-request timer was due, counted from the acceptor's answer; or hyper dropped
   the service without a request. Once the request is seen, or hyper has been told to stop, only
   `shutdown()`, hyper itself and a panic are left.
   */
  lemma WhyTheTaskEnded(cfg: Config, run: seq<Action>, i: nat)
    requires ValidRun(cfg, START, run) && i < |Exec(cfg, START, run).tasks|
    ensures var s := Exec(cfg, START, run);
      var c := s.tasks[i];
      var f := Learn(cfg, START, run, i, NO_FACTS);
      && (c.pc.Leaving? <==> c.exit != Running)
      && Because(cfg, c, f, s.sh)
      && (c.gracefulCalls > 0 || (c.rxReady && f.dispatched) ==> c.exit in [Running, SawShutdown, HttpDone, Unwound])
  {
    StartInv(cfg);
    RunInv(cfg, START, run);
    RunKnows(cfg, START, run, i, NO_FACTS);
    var s := Exec(cfg, START, run);
    assert Conforms(cfg, s.tasks[i], s.sh.now);
  }
}
