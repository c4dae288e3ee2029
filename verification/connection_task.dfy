/**
 The connection task as the source writes it: `select!`s whose branches are polled in order, on an
 object that keeps what the suspended future keeps. Each poll is shown to be a run of Connection.Task,
 whatever other threads do before each of its operations.
 */
module ConnectionTask {
  import opened HandleModel
  import opened Connection

  /** How one `select!` ends: every branch is pending, a branch leads on, or the body returns. */
  datatype Flow = Parked | Onward | Ended

  lemma TaskDrops(cfg: Config, c: Conn, sh: Shared, r: Reply)
    requires c.pc.Leaving?
    ensures var (d, sh') := DropStep(c.pc.drop, sh);
      Task(cfg, c, sh, r) == (c.(pc := Leaving(d)), sh')
  {
  }

  lemma {:induction false} LeavingRun(cfg: Config, c: Conn, sh: Shared, env: Env, at: nat, j: nat)
    requires c.pc == Leaving(Subtract)
    ensures var (d, sh') := RunDrop(sh, env.others, at, j);
      Run(TaskOp(cfg, env), c, sh, at, j) == (c.(pc := Leaving(d)), sh')
  {
    if j > 0 {
      LeavingRun(cfg, c, sh, env, at, j - 1);
      var (d, sh') := RunDrop(sh, env.others, at, j - 1);
      TaskDrops(cfg, c.(pc := Leaving(d)), env.others(at + j - 1, sh'), env.replies(at + j - 1));
    }
  }

  lemma DropIsRun(cfg: Config, c: Conn, sh: Shared, env: Env, n: nat, c': Conn, sh': Shared, j: nat)
    requires RunTask(cfg, c, sh, env, n) == (c', sh') && c'.pc == Leaving(Subtract)
    ensures var (d, sh'') := RunDrop(sh', env.others, n, j);
      RunTask(cfg, c, sh, env, n + j) == (c'.(pc := Leaving(d)), sh'')
  {
    RunSplits(TaskOp(cfg, env), c, sh, 0, n, j);
    LeavingRun(cfg, c', sh', env, n, j);
  }

  /** No operation of the poll before the `n`-th left the task at rest. */
  ghost predicate Unrested(cfg: Config, c: Conn, sh: Shared, env: Env, n: nat) {
    n <= 1 || (Unrested(cfg, c, sh, env, n - 1) && !RunTask(cfg, c, sh, env, n - 1).0.Resting())
  }

  lemma {:induction false} UnrestedEverywhere(cfg: Config, c: Conn, sh: Shared, env: Env, n: nat)
    requires Unrested(cfg, c, sh, env, n)
    ensures forall k :: 0 < k < n ==> !RunTask(cfg, c, sh, env, k).0.Resting()
  {
    if n > 1 {
      UnrestedEverywhere(cfg, c, sh, env, n - 1);
    }
  }

  lemma StillUnrested(cfg: Config, c: Conn, sh: Shared, env: Env, n: nat, c': Conn, sh': Shared)
    requires Unrested(cfg, c, sh, env, n) && RunTask(cfg, c, sh, env, n) == (c', sh') && !c'.Resting()
    ensures Unrested(cfg, c, sh, env, n + 1)
  {
  }

  lemma {:induction false} DropIsUnrested(
      cfg: Config, c: Conn, sh: Shared, env: Env, n: nat, c': Conn, sh': Shared, j: nat)
    requires n > 0 && Unrested(cfg, c, sh, env, n)
    requires RunTask(cfg, c, sh, env, n) == (c', sh') && c'.pc == Leaving(Subtract)
    requires forall k :: 0 <= k < j ==> RunDrop(sh', env.others, n, k).0 != Dropped
    ensures Unrested(cfg, c, sh, env, n + j)
  {
    if j > 0 {
      var k := j - 1;
      DropIsUnrested(cfg, c, sh, env, n, c', sh', k);
      DropIsRun(cfg, c, sh, env, n, c', sh', k);
      var (d, left) := RunDrop(sh', env.others, n, k);
      StillUnrested(cfg, c, sh, env, n + k, c'.(pc := Leaving(d)), left);
    }
  }

  /** The next operation, which is not yet known to leave the task unrested. */
  lemma NextOperation(cfg: Config, c: Conn, sh: Shared, env: Env, n: nat, c': Conn, sh': Shared)
    requires RunTask(cfg, c, sh, env, n) == (c', sh') && Unrested(cfg, c, sh, env, n) && (n > 0 ==> !c'.Resting())
    ensures RunTask(cfg, c, sh, env, n + 1) == Task(cfg, c', env.others(n, sh'), env.replies(n))
    ensures Unrested(cfg, c, sh, env, n + 1)
  {
    RunOne(cfg, c, sh, env, n);
  }

  class ConnectionTask {
    const cfg: Config
    const handle: Handle
    var stage: Stage
    var first: bool
    var entered: nat
    var deadline: nat
    var signal: Signal
    var acceptReady: bool
    var rxReady: bool
    var httpReady: bool
    var gracefulCalls: nat
    var exit: Exit

    /** `tokio::spawn`: nothing of the task has run. */
    constructor (cfg: Config, handle: Handle)
      ensures this.cfg == cfg && this.handle == handle
      ensures Local() == SPAWNED
    {
      this.cfg, this.handle := cfg, handle;
      stage, first := Gate, true;
      entered, deadline := 0, 0;
      signal := Held;
      acceptReady, rxReady, httpReady := false, false, false;
      gracefulCalls := 0;
      exit := Running;
    }

    function At(pc: Pc): Conn
      reads this
    {
      Conn(pc, first, entered, deadline, signal, acceptReady, rxReady, httpReady, gracefulCalls, exit)
    }

    function Head(): Pc
      reads this
    {
      HeadOf(stage)
    }

    function Local(): Conn
      reads this
    {
      At(Head())
    }

    /** The poll that began at `c0` and `sh0` has made `n` operations, has not rested, and stands at `pc`. */
    ghost predicate Along(c0: Conn, sh0: Shared, env: Env, n: nat, pc: Pc)
      reads this, handle
    {
      && RunTask(cfg, c0, sh0, env, n) == (At(pc), handle.State())
      && Unrested(cfg, c0, sh0, env, n)
    }

    ghost predicate Followed(c0: Conn, sh0: Shared, env: Env, n: nat, flow: Flow)
      reads this, handle
    {
      match flow
      case Parked => n > 0 && Along(c0, sh0, env, n, Head()) && !first && stage != Finished
      case Onward => n > 0 && Along(c0, sh0, env, n, Head()) && first && stage != Finished && stage != Gate
      case Ended => n > 0 && Along(c0, sh0, env, n, Leaving(Subtract))
    }

    method Enter(next: Stage)
      modifies this`stage, this`first
      ensures stage == next && first
    {
      stage, first := next, true;
    }

    method End(why: Exit)
      modifies this`first, this`exit
      ensures first && exit == why
    {
      first, exit := true, why;
    }

    /** One poll of hyper's future: it may dispatch the first request and may finish. */
    method PollHttp(reply: HttpReply)
      requires !httpReady
      modifies this`signal, this`httpReady
      ensures forall pc :: At(pc) == AfterHttp(cfg, old(At(pc)), reply)
    {
      if cfg.firstRequest.Some? && signal.Held? {
        signal := if reply.dispatches then Sent else if reply.dropsService then Gone else Held;
      }
      httpReady := reply.ready;
    }

    /** Lines 405-420. */
    method PollGate(env: Env, ghost c0: Conn, ghost sh0: Shared) returns (flow: Flow, n: nat)
      requires stage == Gate && Along(c0, sh0, env, 0, GateShutdown) && !httpReady && !rxReady
      modifies this, handle
      ensures Followed(c0, sh0, env, n, flow) && (flow == Onward ==> !httpReady && !rxReady)
      ensures flow == Onward ==> stage == (if cfg.firstRequest.Some? then First else Serve)
    {
      handle.Interfere(env.others, 0);
      n := 1;
      if handle.shutdown.Seen(first) {
        End(SawShutdown);
        return Ended, n;
      }
      assert Along(c0, sh0, env, n, GateGraceful);
      handle.Interfere(env.others, n);
      n := 2;
      if handle.graceful.Seen(first) {
        End(SawGraceful);
        return Ended, n;
      }
      assert Along(c0, sh0, env, n, GateAccept);
      flow, n := PollAcceptor(env, c0, sh0, n);
    }

    /** The branch `accepted = acceptor.accept(..)`, and lines 412-420 after it. */
    method PollAcceptor(env: Env, ghost c0: Conn, ghost sh0: Shared, at: nat) returns (flow: Flow, n: nat)
      requires at > 0 && stage == Gate && Along(c0, sh0, env, at, GateAccept) && !httpReady && !rxReady
      modifies this, handle
      ensures Followed(c0, sh0, env, n, flow) && (flow == Onward ==> !httpReady && !rxReady)
      ensures flow == Onward ==> stage == (if cfg.firstRequest.Some? then First else Serve)
    {
      n := at;
      handle.Interfere(env.others, n);
      n := n + 1;
      flow := Accept(env.replies(n - 1).accept);
    }

    /** The acceptor's answer; when it has accepted, a first-request timer is started if there is to be one. */
    method Accept(reply: AcceptReply) returns (flow: Flow)
      requires stage == Gate
      modifies this, handle
      ensures Accepted(cfg, old(At(GateAccept)), old(handle.State()), reply) ==
        (At(if flow == Ended then Leaving(Subtract) else Head()), handle.State())
      ensures stage == if flow != Onward then Gate else if cfg.firstRequest.Some? then First else Serve
      ensures flow != Ended ==> (first <==> flow == Onward)
    {
      match reply {
        case AcceptPending =>
          first := false;
          return Parked;
        case AcceptErr =>
          acceptReady := true;
          handle.ReportError(cfg);
          End(AcceptFailed);
          return Ended;
        case AcceptOk =>
          acceptReady, entered := true, handle.now;
          if cfg.firstRequest.Some? {
            deadline := handle.now + cfg.firstRequest.value;
            Enter(First);
          } else {
            Enter(Serve);
          }
          return Onward;
      }
    }

    /** Lines 447-458. */
    method PollFirst(env: Env, ghost c0: Conn, ghost sh0: Shared, at: nat) returns (flow: Flow, n: nat)
      requires stage == First && Along(c0, sh0, env, at, FirstShutdown) && (at > 0 ==> first)
      requires !rxReady && !httpReady
      modifies this, handle
      ensures Followed(c0, sh0, env, n, flow)
      ensures flow == Onward ==> stage == Serve && !httpReady
    {
      NextOperation(cfg, c0, sh0, env, at, Local(), handle.State());
      n := at;
      handle.Interfere(env.others, n);
      n := n + 1;
      if handle.shutdown.Seen(first) {
        End(SawShutdown);
        return Ended, n;
      }
      flow, n := PollFirstGraceful(env, c0, sh0, n);
    }

    method PollFirstGraceful(env: Env, ghost c0: Conn, ghost sh0: Shared, at: nat) returns (flow: Flow, n: nat)
      requires at > 0 && stage == First && Along(c0, sh0, env, at, FirstGraceful) && !httpReady && !rxReady
      modifies this, handle
      ensures Followed(c0, sh0, env, n, flow)
      ensures flow == Onward ==> stage == Serve && !httpReady
    {
      n := at;
      handle.Interfere(env.others, n);
      n := n + 1;
      if handle.graceful.Seen(first) {
        Enter(Serve);
        return Onward, n;
      }
      assert Along(c0, sh0, env, n, FirstTimer);
      flow, n := PollTimer(env, c0, sh0, n);
    }

    method PollTimer(env: Env, ghost c0: Conn, ghost sh0: Shared, at: nat) returns (flow: Flow, n: nat)
      requires at > 0 && stage == First && Along(c0, sh0, env, at, FirstTimer) && !httpReady && !rxReady
      modifies this, handle
      ensures Followed(c0, sh0, env, n, flow)
      ensures flow == Onward ==> stage == Serve && !httpReady
    {
      n := at;
      handle.Interfere(env.others, n);
      n := n + 1;
      if handle.now >= deadline {
        End(TimedOut);
        return Ended, n;
      }
      assert Along(c0, sh0, env, n, FirstSignal);
      flow, n := PollSignalAndHttp(env, c0, sh0, n);
    }

    method PollSignalAndHttp(env: Env, ghost c0: Conn, ghost sh0: Shared, at: nat) returns (flow: Flow, n: nat)
      requires at > 0 && stage == First && Along(c0, sh0, env, at, FirstSignal) && !httpReady && !rxReady
      modifies this, handle
      ensures Followed(c0, sh0, env, n, flow)
      ensures flow == Onward ==> stage == Serve && !httpReady
    {
      n := at;
      handle.Interfere(env.others, n);
      n := n + 1;
      if signal.Sent? {
        rxReady := true;
        Enter(Serve);
        return Onward, n;
      }
      if signal.Gone? {
        rxReady := true;
        End(SenderGone);
        return Ended, n;
      }
      assert Along(c0, sh0, env, n, FirstHttp);
      flow, n := PollHttpBranch(env, c0, sh0, n, FirstHttp);
    }

    /** The branch `_ = &mut serve_future`, the last of its `select!`. */
    method PollHttpBranch(env: Env, ghost c0: Conn, ghost sh0: Shared, at: nat, ghost branch: Pc)
      returns (flow: Flow, n: nat)
      requires (stage, branch) in [(First, FirstHttp), (Serve, ServeHttp), (Drain, DrainHttp)]
      requires at > 0 && Along(c0, sh0, env, at, branch) && !httpReady
      modifies this, handle
      ensures Followed(c0, sh0, env, n, flow) && flow != Onward
    {
      n := at;
      handle.Interfere(env.others, n);
      n := n + 1;
      ghost var c := At(branch);
      PollHttp(env.replies(n - 1).http);
      assert At(branch) == AfterHttp(cfg, c, env.replies(at).http);
      if httpReady {
        End(HttpDone);
        return Ended, n;
      }
      first := false;
      return Parked, n;
    }

    /** Lines 461-476, up to the call of hyper's `graceful_shutdown`. */
    method PollServe(env: Env, ghost c0: Conn, ghost sh0: Shared, at: nat) returns (flow: Flow, n: nat)
      requires stage == Serve && Along(c0, sh0, env, at, ServeGraceful) && (at > 0 ==> first) && !httpReady
      modifies this, handle
      ensures Followed(c0, sh0, env, n, flow)
      ensures flow == Onward ==> stage == Drain && !httpReady
    {
      NextOperation(cfg, c0, sh0, env, at, Local(), handle.State());
      n := at;
      handle.Interfere(env.others, n);
      n := n + 1;
      if handle.graceful.Seen(first) {
        gracefulCalls := gracefulCalls + 1;
        Enter(Drain);
        return Onward, n;
      }
      assert Along(c0, sh0, env, n, ServeShutdown);
      flow, n := PollServeShutdown(env, c0, sh0, n);
    }

    method PollServeShutdown(env: Env, ghost c0: Conn, ghost sh0: Shared, at: nat) returns (flow: Flow, n: nat)
      requires at > 0 && stage == Serve && Along(c0, sh0, env, at, ServeShutdown) && !httpReady
      modifies this, handle
      ensures Followed(c0, sh0, env, n, flow) && flow != Onward
    {
      n := at;
      handle.Interfere(env.others, n);
      n := n + 1;
      if handle.shutdown.Seen(first) {
        End(SawShutdown);
        return Ended, n;
      }
      assert Along(c0, sh0, env, n, ServeHttp);
      flow, n := PollHttpBranch(env, c0, sh0, n, ServeHttp);
    }

    /** Lines 468-472. */
    method PollDrain(env: Env, ghost c0: Conn, ghost sh0: Shared, at: nat) returns (flow: Flow, n: nat)
      requires stage == Drain && Along(c0, sh0, env, at, DrainShutdown) && (at > 0 ==> first) && !httpReady
      modifies this, handle
      ensures Followed(c0, sh0, env, n, flow) && flow != Onward
    {
      n := at;
      handle.Interfere(env.others, n);
      n := n + 1;
      if handle.shutdown.Seen(first) {
        End(SawShutdown);
        return Ended, n;
      }
      assert Along(c0, sh0, env, n, DrainHttp);
      flow, n := PollHttpBranch(env, c0, sh0, n, DrainHttp);
    }

    /** The body, resumed at the stage it is in. */
    method PollBody(env: Env, ghost c0: Conn, ghost sh0: Shared) returns (flow: Flow, n: nat)
      requires Local().Resting() && stage != Finished && (c0, sh0) == (Local(), handle.State())
      requires Conforms(cfg, Local(), handle.now)
      modifies this, handle
      ensures Followed(c0, sh0, env, n, flow) && flow != Onward
    {
      flow, n := Onward, 0;
      if stage == Gate {
        flow, n := PollGate(env, c0, sh0);
      }
      if flow == Onward && stage == First {
        flow, n := PollFirst(env, c0, sh0, n);
      }
      if flow == Onward && stage == Serve {
        flow, n := PollServe(env, c0, sh0, n);
      }
      if flow == Onward {
        flow, n := PollDrain(env, c0, sh0, n);
      }
    }

    /**
     One poll of the task, from wherever it is suspended to where it parks again or is dropped. It is
     the run of `n` operations of Connection.Task that starts there, and no shorter run has rested.
     */
    method Poll(env: Env) returns (n: nat)
      requires Local().Resting() && stage != Finished
      requires Conforms(cfg, Local(), handle.now) && Forward(env.others)
      modifies this, handle
      ensures RunTask(cfg, old(Local()), old(handle.State()), env, n) == (Local(), handle.State())
      ensures PollEnds(cfg, old(Local()), old(handle.State()), env, n)
      ensures Conforms(cfg, Local(), handle.now)
    {
      ghost var c0, sh0 := Local(), handle.State();
      var flow;
      flow, n := PollBody(env, c0, sh0);
      if flow == Ended {
        n := Drop(env, c0, sh0, n);
      }
      RunConforms(cfg, c0, sh0, env, n);
      UnrestedEverywhere(cfg, c0, sh0, env, n);
    }

    /** The captured watcher is dropped when the body has returned, in the same poll. */
    method Drop(env: Env, ghost c0: Conn, ghost sh0: Shared, at: nat) returns (n: nat)
      requires at > 0 && Along(c0, sh0, env, at, Leaving(Subtract))
      modifies this, handle
      ensures stage == Finished && at < n && Along(c0, sh0, env, n, Leaving(Dropped))
    {
      ghost var c, sh := At(Leaving(Subtract)), handle.State();
      var ops := handle.DropWatcher(env.others, at);
      stage := Finished;
      n := at + ops;
      DropIsRun(cfg, c0, sh0, env, at, c, sh, ops);
      DropIsUnrested(cfg, c0, sh0, env, at, c, sh, ops);
    }
  }
}
